/** The walk-forward windows in the terms of their arguments: how much the first
    fold trains on, how even the test blocks are, which rows each window counts,
    and which arguments are refused. */
module WalkForwardCuts {
  import opened Common
  import opened WalkForward

  // ------------------------------------------------------------ counting

  /** The distinct timestamps of the rows. */
  ghost function Instants(rows: seq<Row>): set<int> {
    set r | r in rows :: r.timestamp
  }

  ghost function InstantsUpTo(rows: seq<Row>, x: int): set<int> {
    set t | t in Instants(rows) && t <= x
  }

  /** The rows, by index, after `lo` and up to `hi`. */
  ghost function RowsWithin(rows: seq<Row>, lo: int, hi: int): set<nat> {
    set i | 0 <= i < |rows| && lo < rows[i].timestamp <= hi
  }

  ghost function RowsUpTo(rows: seq<Row>, x: int): set<nat> {
    set i | 0 <= i < |rows| && rows[i].timestamp <= x
  }

  ghost function Shifted(s: set<nat>): set<nat> {
    set i | i in s :: i + 1
  }

  lemma {:induction false} ShiftedSize(s: set<nat>)
    ensures |Shifted(s)| == |s|
  {
    if s != {} {
      var x :| x in s;
      ShiftedSize(s - {x});
      forall y ensures y in Shifted(s) <==> y in Shifted(s - {x}) + {x + 1} {
        if y in Shifted(s) {
          var i :| i in s && y == i + 1;
          assert i == x || i in s - {x};
        }
      }
      assert Shifted(s) == Shifted(s - {x}) + {x + 1};
    }
  }

  lemma {:induction false} CountsAreRows(rows: seq<Row>, lo: int, hi: int)
    ensures Between(rows, lo, hi) == |RowsWithin(rows, lo, hi)|
    ensures UpTo(rows, hi) == |RowsUpTo(rows, hi)|
  {
    if rows != [] {
      CountsAreRows(rows[1..], lo, hi);
      ShiftedSize(RowsWithin(rows[1..], lo, hi));
      ShiftedSize(RowsUpTo(rows[1..], hi));
      FirstRowCounts(rows, lo, hi);
    }
  }

  lemma FirstRowCounts(rows: seq<Row>, lo: int, hi: int)
    requires rows != []
    ensures RowsWithin(rows, lo, hi)
            == Shifted(RowsWithin(rows[1..], lo, hi)) + (if lo < rows[0].timestamp <= hi then {0} else {})
    ensures RowsUpTo(rows, hi) == Shifted(RowsUpTo(rows[1..], hi)) + (if rows[0].timestamp <= hi then {0} else {})
  {
    var rest := rows[1..];
    forall i: nat | i > 0 && i < |rows| ensures rows[i] == rest[i - 1] {
    }
    forall i: nat ensures i in RowsWithin(rows, lo, hi) <==>
                          i in Shifted(RowsWithin(rest, lo, hi)) + (if lo < rows[0].timestamp <= hi then {0} else {})
    {
      if i > 0 {
        var j: nat := i - 1;
        assert j in RowsWithin(rest, lo, hi) <==> i in RowsWithin(rows, lo, hi);
        assert j in RowsWithin(rest, lo, hi) ==> j + 1 in Shifted(RowsWithin(rest, lo, hi));
      }
    }
    forall i: nat ensures i in RowsUpTo(rows, hi) <==>
                          i in Shifted(RowsUpTo(rest, hi)) + (if rows[0].timestamp <= hi then {0} else {})
    {
      if i > 0 {
        var j: nat := i - 1;
        assert j in RowsUpTo(rest, hi) <==> i in RowsUpTo(rows, hi);
        assert j in RowsUpTo(rest, hi) ==> j + 1 in Shifted(RowsUpTo(rest, hi));
      }
    }
  }

  ghost function Members(ts: seq<int>): set<int> {
    set t | t in ts
  }

  lemma {:induction false} IncreasingCounts(ts: seq<int>)
    requires Increasing(ts)
    ensures |Members(ts)| == |ts|
  {
    if ts == [] {
      assert Members(ts) == {};
    } else {
      var n := |ts| - 1;
      IncreasingCounts(ts[..n]);
      assert ts == ts[..n] + [ts[n]];
      assert Members(ts) == Members(ts[..n]) + {ts[n]};
    }
  }

  /** The i-th timestamp has i + 1 of them at or before it. */
  lemma TimestampsCount(rows: seq<Row>, i: nat)
    requires i < |Timestamps(rows)|
    ensures |Instants(rows)| == |Timestamps(rows)|
    ensures |InstantsUpTo(rows, Timestamps(rows)[i])| == i + 1
  {
    var ts := Timestamps(rows);
    TimestampsAreInstants(rows);
    IncreasingCounts(ts);
    var front := ts[..i + 1];
    IncreasingCounts(front);
    forall t ensures t in Members(front) <==> t in InstantsUpTo(rows, ts[i]) {
      if t in InstantsUpTo(rows, ts[i]) {
        var j :| 0 <= j < |ts| && ts[j] == t;
        assert j <= i && front[j] == t;
      }
    }
    assert Members(front) == InstantsUpTo(rows, ts[i]);
  }

  lemma TimestampsAreInstants(rows: seq<Row>)
    ensures Increasing(Timestamps(rows)) && Members(Timestamps(rows)) == Instants(rows)
    ensures |Timestamps(rows)| == |Instants(rows)|
  {
    TimestampsFacts(rows);
    IncreasingCounts(Timestamps(rows));
    hide Timestamps;
    forall t ensures t in Members(Timestamps(rows)) <==> t in Instants(rows) {
    }
    assert Members(Timestamps(rows)) == Instants(rows);
  }

  // ------------------------------------------------------------ the first cut

  /** `n` of `total` is the training share: the whole part of it, at least one. */
  ghost predicate IsCut(total: nat, ratio: real, n: nat) {
    n >= 1 && (n as real <= total as real * ratio < n as real + 1.0 || (n == 1 && total as real * ratio < 1.0))
  }

  lemma CutIsUnique(total: nat, ratio: real, n: nat, m: nat)
    requires IsCut(total, ratio, n) && IsCut(total, ratio, m)
    ensures n == m
  {
  }

  lemma InitialIsTheCut(total: nat, ratio: real)
    ensures InitialTrainSize(total, ratio) >= 1 && IsCut(total, ratio, InitialTrainSize(total, ratio))
  {
  }

  /** The distinct timestamps and the first training share of a generation. */
  lemma CutFollowsTheRatio(rows: seq<Row>, config: Config)
    requires Generate(rows, config).Ok?
    ensures |Generate(rows, config).value| == config.folds >= 1
    ensures var w := Generate(rows, config).value[0];
            IsCut(|Instants(rows)|, config.trainRatio, |InstantsUpTo(rows, w.trainEnd)|)
  {
    hide WindowsUpTo, Timestamps, HasDuplicates, InitialTrainSize;
    var total := |Timestamps(rows)|;
    EveryWindow(rows, config, 1);
    TimestampsAreInstants(rows);
    InitialIsTheCut(total, config.trainRatio);
    TimestampsCount(rows, LayoutOf(rows, config).plan.End(0));
  }

  /** How many distinct timestamps a test block holds, its purged ones included. */
  ghost function BlockSize(rows: seq<Row>, w: Window): int {
    |InstantsUpTo(rows, w.testEnd)| - |InstantsUpTo(rows, w.trainEnd)|
  }

  /** What the first fold does not train on is divided evenly: every block gets
      the whole quotient, and the first ones one of the remainder each. */
  lemma BlocksAreEven(rows: seq<Row>, config: Config, k: nat)
    requires Generate(rows, config).Ok? && 1 <= k <= config.folds
    ensures |Generate(rows, config).value| == config.folds
    ensures var ws := Generate(rows, config).value;
            var rest := |Instants(rows)| - |InstantsUpTo(rows, ws[0].trainEnd)|;
            BlockSize(rows, ws[k - 1]) == rest / config.folds + (if k <= rest % config.folds then 1 else 0)
  {
    hide WindowsUpTo, Timestamps, HasDuplicates, InitialTrainSize;
    EveryWindow(rows, config, 1);
    EveryWindow(rows, config, k);
    TimestampsAreInstants(rows);
    var p := LayoutOf(rows, config).plan;
    TimestampsCount(rows, p.End(0));
    TimestampsCount(rows, p.End(k - 1));
    TimestampsCount(rows, p.End(k));
    assert p.End(k) == p.End(k - 1) + p.Size(k);
  }

  // ------------------------------------------------------------ the windows

  /** A window in the terms of the rows. It trains on everything up to the end of
      its training share; `first` is the first timestamp after that; it tests on
      everything in its block that lies more than the purge after `first`, and
      what is before is purged. */
  ghost predicate WindowIs(rows: seq<Row>, config: Config, k: nat, first: int, w: Window) {
    && w.foldId == k
    && w.trainStart in Instants(rows) && (forall t :: t in Instants(rows) ==> w.trainStart <= t)
    && w.trainEnd in Instants(rows) && w.testEnd in Instants(rows)
    && first in Instants(rows) && w.trainEnd < first
       && (forall t :: t in Instants(rows) && w.trainEnd < t ==> first <= t)
    && w.testStart in Instants(rows) && first + config.purgeMinutes * 60_000_000_000 < w.testStart <= w.testEnd
    && (forall t :: t in Instants(rows) && first + config.purgeMinutes * 60_000_000_000 < t ==> w.testStart <= t)
    && w.trainRows == |RowsUpTo(rows, w.trainEnd)|
    && w.purgedRows == |RowsWithin(rows, w.trainEnd, w.testStart - 1)|
    && w.testRows == |RowsWithin(rows, w.testStart - 1, w.testEnd)|
  }

  lemma WindowSays(rows: seq<Row>, config: Config, k: nat) returns (first: int)
    requires Generate(rows, config).Ok? && 1 <= k <= config.folds
    ensures |Generate(rows, config).value| == config.folds
    ensures WindowIs(rows, config, k, first, Generate(rows, config).value[k - 1])
  {
    hide WindowsUpTo, Timestamps, HasDuplicates, InitialTrainSize, Earliest, Between, UpTo;
    EveryWindow(rows, config, k);
    AllBlocksFit(rows, config);
    var l, w := LayoutOf(rows, config), Generate(rows, config).value[k - 1];
    WindowIsFoldWindow(rows, l, config.folds, k);
    first := l.ts[l.plan.End(k - 1) + 1];
    var boundary := first + l.purge;
    EarliestFacts(rows, boundary, w.testEnd);
    SelectFromEarliest(rows, rows, boundary, w.testEnd);
    CountsAreRows(rows, w.trainEnd, w.testStart - 1);
    CountsAreRows(rows, w.testStart - 1, w.testEnd);
    CountsAreRows(rows, w.trainEnd, w.trainEnd);
    PlacesInTime(rows, l.plan.End(k - 1), l.plan.End(k), first);
    TimestampsAreInstants(rows);
  }

  /** Where the timestamps of a block stand among all of them. */
  lemma PlacesInTime(rows: seq<Row>, i: nat, j: nat, first: int)
    requires i < j < |Timestamps(rows)| && first == Timestamps(rows)[i + 1]
    ensures var ts := Timestamps(rows);
            && ts[0] in Instants(rows) && (forall t :: t in Instants(rows) ==> ts[0] <= t)
            && ts[i] in Instants(rows) && ts[j] in Instants(rows) && first in Instants(rows) && ts[i] < first
            && (forall t :: t in Instants(rows) && ts[i] < t ==> first <= t)
  {
    var ts := Timestamps(rows);
    TimestampsAreInstants(rows);
    assert ts[0] in Members(ts) && ts[i] in Members(ts) && ts[j] in Members(ts) && first in Members(ts);
    forall t | t in Instants(rows) ensures ts[0] <= t && (ts[i] < t ==> first <= t) {
      assert t in Members(ts);
      var n :| 0 <= n < |ts| && ts[n] == t;
      assert n > 0 ==> ts[0] < ts[n];
      assert n <= i || n == i + 1 || ts[i + 1] < ts[n];
      assert n < i ==> ts[n] < ts[i];
    }
  }

  // ------------------------------------------------------------ refusals

  ghost predicate ArgumentsOk(config: Config) {
    && config.folds >= 1 && 0.0 < config.trainRatio < 1.0 && 0.0 < config.testRatio < 1.0 && config.purgeMinutes >= 0
  }

  ghost predicate Repeats(rows: seq<Row>) {
    exists i, j :: 0 <= i < j < |rows| && rows[i].symbol == rows[j].symbol && rows[i].timestamp == rows[j].timestamp
  }

  /** A generation is refused before any fold exactly when there are no rows, two
      rows share symbol and timestamp, an argument is out of range, there are
      fewer than three distinct timestamps a fold, or what is left after the
      training share has fewer than one. */
  lemma RefusedExactlyWhen(rows: seq<Row>, config: Config)
    ensures Rejection(rows, config).Some? <==>
            || rows == [] || Repeats(rows) || !ArgumentsOk(config)
            || |Instants(rows)| < config.folds * 3
            || exists n :: IsCut(|Instants(rows)|, config.trainRatio, n) && |Instants(rows)| - n < config.folds
    ensures Rejection(rows, config) == Some(InsufficientObservations) <==>
            && rows != [] && !Repeats(rows) && ArgumentsOk(config) && |Instants(rows)| >= config.folds * 3
            && exists n :: IsCut(|Instants(rows)|, config.trainRatio, n) && |Instants(rows)| - n < config.folds
    ensures Rejection(rows, config) == Some(InsufficientTimestamps) <==>
            rows != [] && !Repeats(rows) && ArgumentsOk(config) && |Instants(rows)| < config.folds * 3
  {
    hide Timestamps, InitialTrainSize, IsCut;
    var total := |Timestamps(rows)|;
    TimestampsAreInstants(rows);
    InitialIsTheCut(total, config.trainRatio);
    forall n: nat | IsCut(total, config.trainRatio, n) ensures n == InitialTrainSize(total, config.trainRatio) {
      CutIsUnique(total, config.trainRatio, n, InitialTrainSize(total, config.trainRatio));
    }
  }
}
