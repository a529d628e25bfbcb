/** Purged walk-forward windows: generation, evaluation and report validation.
    Timestamps are whole nanoseconds, as in pandas. */
module WalkForward {
  import opened Common

  const MINUTE: int := 60_000_000_000

  datatype Row = Row(symbol: string, timestamp: int, values: seq<real>)

  datatype Config = Config(folds: int, trainRatio: real, testRatio: real, purgeMinutes: int)

  datatype Window = Window(
    foldId: int, trainStart: int, trainEnd: int, testStart: int, testEnd: int,
    trainRows: int, testRows: int, purgedRows: int)

  datatype WindowError =
    | EmptyData | DuplicateRows | FoldsTooSmall | BadTrainRatio | BadTestRatio | NegativePurge
    | InsufficientTimestamps | InsufficientObservations | ExceededTimestamps
    | EmptyTraining(fold: int) | EmptyTest(fold: int)

  // ------------------------------------------------------ counting by timestamp

  /** Rows with a timestamp at or before `x`. */
  function UpTo(rows: seq<Row>, x: int): nat {
    if rows == [] then 0 else UpTo(rows[1..], x) + (if rows[0].timestamp <= x then 1 else 0)
  }

  /** Rows after `lo`, up to and including `hi`. */
  function Between(rows: seq<Row>, lo: int, hi: int): nat {
    if rows == [] then 0 else Between(rows[1..], lo, hi) + (if lo < rows[0].timestamp <= hi then 1 else 0)
  }

  /** The rows that `Between` counts. */
  function Select(rows: seq<Row>, lo: int, hi: int): seq<Row> {
    if rows == [] then []
    else (if lo < rows[0].timestamp <= hi then [rows[0]] else []) + Select(rows[1..], lo, hi)
  }

  /** The earliest timestamp that `Between` counts. */
  function Earliest(rows: seq<Row>, lo: int, hi: int): Option<int> {
    if rows == [] then None
    else
      var rest := Earliest(rows[1..], lo, hi);
      var t := rows[0].timestamp;
      if lo < t <= hi && (rest.None? || t < rest.value) then Some(t) else rest
  }

  lemma {:induction false} BetweenSplits(rows: seq<Row>, lo: int, mid: int, hi: int)
    requires lo <= mid <= hi
    ensures Between(rows, lo, mid) + Between(rows, mid, hi) == Between(rows, lo, hi)
    ensures UpTo(rows, lo) + Between(rows, lo, hi) == UpTo(rows, hi)
  {
    if rows != [] {
      BetweenSplits(rows[1..], lo, mid, hi);
    }
  }

  lemma {:induction false} EarliestFacts(rows: seq<Row>, lo: int, hi: int)
    ensures var e := Earliest(rows, lo, hi);
            && (e.None? <==> Between(rows, lo, hi) == 0)
            && (e.None? <==> forall r :: r in rows ==> !(lo < r.timestamp <= hi))
            && (e.Some? ==> lo < e.value <= hi
                            && (exists r :: r in rows && r.timestamp == e.value)
                            && forall r :: r in rows && lo < r.timestamp <= hi ==> e.value <= r.timestamp)
  {
    if rows != [] {
      EarliestFacts(rows[1..], lo, hi);
      assert rows[0] in rows;
      assert forall r :: r in rows <==> r == rows[0] || r in rows[1..];
    }
  }

  /** Nothing lies between the boundary and the earliest selected row, so the
      mask "at or after the first test row" selects the same rows. */
  lemma {:induction false} SelectFromEarliest(rows: seq<Row>, all: seq<Row>, lo: int, hi: int)
    requires Earliest(all, lo, hi).Some?
    requires forall r :: r in rows ==> r in all
    ensures Select(rows, Earliest(all, lo, hi).value - 1, hi) == Select(rows, lo, hi)
    ensures Between(rows, Earliest(all, lo, hi).value - 1, hi) == Between(rows, lo, hi)
  {
    if rows != [] {
      SelectFromEarliest(rows[1..], all, lo, hi);
      EarliestFacts(all, lo, hi);
      assert rows[0] in all;
    }
  }

  lemma {:induction false} SelectFacts(rows: seq<Row>, lo: int, hi: int)
    ensures |Select(rows, lo, hi)| == Between(rows, lo, hi)
    ensures forall r :: r in Select(rows, lo, hi) <==> r in rows && lo < r.timestamp <= hi
  {
    if rows != [] {
      SelectFacts(rows[1..], lo, hi);
      assert forall r :: r in rows <==> r == rows[0] || r in rows[1..];
    }
  }

  lemma {:induction false} UpToAll(rows: seq<Row>, x: int)
    requires forall r :: r in rows ==> r.timestamp <= x
    ensures UpTo(rows, x) == |rows|
  {
    if rows != [] {
      UpToAll(rows[1..], x);
      assert rows[0] in rows;
    }
  }

  lemma {:induction false} UpToPositive(rows: seq<Row>, r: Row, x: int)
    requires r in rows && r.timestamp <= x
    ensures UpTo(rows, x) > 0
  {
    if rows[0] != r {
      UpToPositive(rows[1..], r, x);
    }
  }

  // ------------------------------------------------------- distinct timestamps

  function InsertDistinct(ts: seq<int>, t: int): seq<int> {
    if ts == [] then [t]
    else if t < ts[0] then [t] + ts
    else if t == ts[0] then ts
    else [ts[0]] + InsertDistinct(ts[1..], t)
  }

  /** `drop_duplicates().sort_values()` of the timestamp column. */
  function Timestamps(rows: seq<Row>): seq<int> {
    if rows == [] then [] else InsertDistinct(Timestamps(rows[1..]), rows[0].timestamp)
  }

  ghost predicate Increasing(ts: seq<int>) {
    forall i, j :: 0 <= i < j < |ts| ==> ts[i] < ts[j]
  }

  lemma {:induction false} InsertDistinctFacts(ts: seq<int>, t: int)
    requires Increasing(ts)
    ensures Increasing(InsertDistinct(ts, t))
    ensures forall x :: x in InsertDistinct(ts, t) <==> x == t || x in ts
  {
    if ts != [] && t > ts[0] {
      InsertDistinctFacts(ts[1..], t);
      var rest := InsertDistinct(ts[1..], t);
      forall j | 0 <= j < |rest| ensures ts[0] < rest[j] {
        assert rest[j] in rest;
      }
      assert forall x :: x in ts <==> x == ts[0] || x in ts[1..];
    }
  }

  lemma {:induction false} TimestampsFacts(rows: seq<Row>)
    ensures Increasing(Timestamps(rows))
    ensures forall t :: t in Timestamps(rows) <==> exists r :: r in rows && r.timestamp == t
    ensures rows != [] ==> Timestamps(rows) != []
  {
    if rows != [] {
      TimestampsFacts(rows[1..]);
      InsertDistinctFacts(Timestamps(rows[1..]), rows[0].timestamp);
      assert forall r :: r in rows <==> r == rows[0] || r in rows[1..];
      assert rows[0] in rows;
      assert rows[0].timestamp in Timestamps(rows);
    }
  }

  // ------------------------------------------------------------ the generator

  predicate HasDuplicates(rows: seq<Row>) {
    exists i, j :: 0 <= i < j < |rows| && rows[i].symbol == rows[j].symbol && rows[i].timestamp == rows[j].timestamp
  }

  function InitialTrainSize(total: nat, ratio: real): int {
    var size := (total as real * ratio).Floor;
    if size < 1 then 1 else size
  }

  /** How the distinct timestamps are cut: a first training block of `initial`,
      then test blocks of `base`, the first `remainder` of them one longer. */
  datatype Plan = Plan(initial: int, base: int, remainder: int) {
    predicate Ok() {
      initial >= 1 && base >= 1 && remainder >= 0
    }

    function Size(k: nat): int {
      base + (if k <= remainder then 1 else 0)
    }

    /** Index of the last timestamp of test block `k`; block 0 is the first
        training block. */
    function End(k: nat): int {
      if k == 0 then initial - 1 else End(k - 1) + Size(k)
    }
  }

  function MakePlan(total: nat, config: Config): Plan
    requires config.folds >= 1
  {
    var initial := InitialTrainSize(total, config.trainRatio);
    Plan(initial, (total - initial) / config.folds, (total - initial) % config.folds)
  }

  /** The checks before the fold loop, in the source's order. */
  function Rejection(rows: seq<Row>, config: Config): Option<WindowError> {
    var total := |Timestamps(rows)|;
    if rows == [] then Some(EmptyData)
    else if HasDuplicates(rows) then Some(DuplicateRows)
    else if config.folds < 1 then Some(FoldsTooSmall)
    else if !(0.0 < config.trainRatio < 1.0) then Some(BadTrainRatio)
    else if !(0.0 < config.testRatio < 1.0) then Some(BadTestRatio)
    else if config.purgeMinutes < 0 then Some(NegativePurge)
    else if total < config.folds * 3 then Some(InsufficientTimestamps)
    else if total - InitialTrainSize(total, config.trainRatio) < config.folds then Some(InsufficientObservations)
    else None
  }

  lemma AcceptedPlan(rows: seq<Row>, config: Config)
    requires Rejection(rows, config).None?
    ensures MakePlan(|Timestamps(rows)|, config).Ok()
    ensures var p := MakePlan(|Timestamps(rows)|, config);
            && p.initial + config.folds * p.base + p.remainder == |Timestamps(rows)|
            && p.remainder < config.folds
  {
    var rest := |Timestamps(rows)| - InitialTrainSize(|Timestamps(rows)|, config.trainRatio);
    Quotient(rest, config.folds);
  }

  lemma Quotient(n: int, d: int)
    requires 1 <= d <= n
    ensures n / d >= 1 && 0 <= n % d < d && n == d * (n / d) + n % d
  {
  }

  /** Block ends strictly increase from the first training block. */
  lemma {:induction false} EndsIncrease(p: Plan, i: nat, j: nat)
    requires p.Ok() && i < j
    ensures 0 <= p.initial - 1 <= p.End(i) < p.End(j)
    decreases j
  {
    if i + 1 < j {
      EndsIncrease(p, i, j - 1);
    } else if i > 0 {
      EndsIncrease(p, i - 1, i);
    }
  }

  lemma {:induction false} EndClosedForm(p: Plan, k: nat)
    requires p.Ok()
    ensures p.End(k) == p.initial - 1 + k * p.base + (if k <= p.remainder then k else p.remainder)
  {
    if k > 0 {
      EndClosedForm(p, k - 1);
      assert k * p.base == (k - 1) * p.base + p.base;
    }
  }

  /** The window of fold `k`, or why there is none. */
  function FoldWindow(rows: seq<Row>, ts: seq<int>, purge: int, k: int, trainEndIndex: int,
      testEndIndex: int): Result<Window, WindowError>
    requires 0 <= trainEndIndex < testEndIndex
  {
    if testEndIndex >= |ts| then Err(ExceededTimestamps)
    else
      var trainEnd, testEnd := ts[trainEndIndex], ts[testEndIndex];
      var boundary := ts[trainEndIndex + 1] + purge;
      if UpTo(rows, trainEnd) == 0 then Err(EmptyTraining(k))
      else if Between(rows, boundary, testEnd) == 0 then Err(EmptyTest(k))
      else
        EarliestFacts(rows, boundary, testEnd);
        var start := Earliest(rows, boundary, testEnd).value;
        Ok(Window(k, ts[0], trainEnd, start, testEnd, UpTo(rows, trainEnd), Between(rows, boundary, testEnd),
                  Between(rows, trainEnd, start - 1)))
  }

  /** The windows of folds 1 to `k`, or the error of the first fold without one. */
  function WindowsUpTo(rows: seq<Row>, ts: seq<int>, purge: int, p: Plan, k: nat): Result<seq<Window>, WindowError>
    requires p.Ok()
  {
    if k == 0 then Ok([])
    else
      match WindowsUpTo(rows, ts, purge, p, k - 1)
      case Err(e) => Err(e)
      case Ok(windows) =>
        EndsIncrease(p, k - 1, k);
        match FoldWindow(rows, ts, purge, k, p.End(k - 1), p.End(k))
        case Err(e) => Err(e)
        case Ok(w) => Ok(windows + [w])
  }

  function Generate(rows: seq<Row>, config: Config): Result<seq<Window>, WindowError> {
    match Rejection(rows, config)
    case Some(e) => Err(e)
    case None =>
      AcceptedPlan(rows, config);
      WindowsUpTo(rows, Timestamps(rows), config.purgeMinutes * MINUTE, MakePlan(|Timestamps(rows)|, config),
        config.folds)
  }

  /** `generate_windows`: the loop that carries the last training index and the
      windows built so far. */
  method GenerateWindows(rows: seq<Row>, config: Config) returns (r: Result<seq<Window>, WindowError>)
    ensures r == Generate(rows, config)
  {
    var rejection := Rejection(rows, config);
    if rejection.Some? {
      return Err(rejection.value);
    }
    var ts := Timestamps(rows);
    var purge := config.purgeMinutes * MINUTE;
    var p := MakePlan(|ts|, config);
    AcceptedPlan(rows, config);
    var windows: seq<Window> := [];
    var trainEndIndex := p.initial - 1;
    var foldId := 1;
    while foldId <= config.folds
      invariant 1 <= foldId <= config.folds + 1
      invariant trainEndIndex == p.End(foldId - 1) >= 0
      invariant WindowsUpTo(rows, ts, purge, p, foldId - 1) == Ok(windows)
    {
      EndsIncrease(p, foldId - 1, foldId);
      var testStartIndex := trainEndIndex + 1;
      var testEndIndex := testStartIndex + (p.base + (if foldId <= p.remainder then 1 else 0)) - 1;
      var window := FoldWindow(rows, ts, purge, foldId, trainEndIndex, testEndIndex);
      if window.Err? {
        FirstErrorDecides(rows, ts, purge, p, foldId, config.folds);
        return Err(window.error);
      }
      windows := windows + [window.value];
      trainEndIndex := testEndIndex;
      foldId := foldId + 1;
    }
    return Ok(windows);
  }

  lemma {:induction false} FirstErrorDecides(rows: seq<Row>, ts: seq<int>, purge: int, p: Plan, j: nat, k: nat)
    requires p.Ok() && j <= k && WindowsUpTo(rows, ts, purge, p, j).Err?
    ensures WindowsUpTo(rows, ts, purge, p, k) == WindowsUpTo(rows, ts, purge, p, j)
    decreases k
  {
    if j < k {
      FirstErrorDecides(rows, ts, purge, p, j, k - 1);
    }
  }

  // --------------------------------------------------- what generation promises

  /** Everything a caller of an accepted configuration can name. */
  datatype Layout = Layout(ts: seq<int>, purge: int, plan: Plan)

  function LayoutOf(rows: seq<Row>, config: Config): Layout
    requires Rejection(rows, config).None?
  {
    Layout(Timestamps(rows), config.purgeMinutes * MINUTE, MakePlan(|Timestamps(rows)|, config))
  }

  /** The blocks cover exactly the distinct timestamps: block 0 starts at the
      first, every block is non-empty, and the last one ends at the last. */
  lemma BlocksTileTheTimestamps(rows: seq<Row>, config: Config)
    requires Rejection(rows, config).None?
    ensures var l := LayoutOf(rows, config);
            && l.plan.Ok()
            && l.plan.End(config.folds) == |l.ts| - 1
            && (forall i: nat, j: nat :: i < j <= config.folds ==> 0 <= l.plan.End(i) < l.plan.End(j) < |l.ts|)
  {
    var l := LayoutOf(rows, config);
    AcceptedPlan(rows, config);
    EndClosedForm(l.plan, config.folds);
    forall i: nat, j: nat | i < j <= config.folds ensures 0 <= l.plan.End(i) < l.plan.End(j) < |l.ts| {
      EndsIncrease(l.plan, i, j);
      if j < config.folds {
        EndsIncrease(l.plan, j, config.folds);
      }
    }
  }

  /** Block `k` is a non-empty run of the timestamps. */
  predicate BlockFits(l: Layout, k: nat) {
    l.plan.Ok() && k >= 1 && 0 <= l.plan.End(k - 1) < l.plan.End(k) < |l.ts|
  }

  /** Block `k` reaches more than the purge interval past its own first timestamp. */
  predicate BlockOutlastsPurge(l: Layout, k: nat) {
    BlockFits(l, k) && l.ts[l.plan.End(k)] > l.ts[l.plan.End(k - 1) + 1] + l.purge
  }

  lemma FoldSucceedsExactlyWhen(rows: seq<Row>, l: Layout, k: nat)
    requires l.ts == Timestamps(rows) && BlockFits(l, k)
    ensures var w := FoldWindow(rows, l.ts, l.purge, k, l.plan.End(k - 1), l.plan.End(k));
            if BlockOutlastsPurge(l, k) then w.Ok? else w == Err(EmptyTest(k))
  {
    var trainEnd, testEnd := l.ts[l.plan.End(k - 1)], l.ts[l.plan.End(k)];
    var boundary := l.ts[l.plan.End(k - 1) + 1] + l.purge;
    TimestampsFacts(rows);
    assert trainEnd in l.ts && testEnd in l.ts;
    var r :| r in rows && r.timestamp == trainEnd;
    UpToPositive(rows, r, trainEnd);
    var q :| q in rows && q.timestamp == testEnd;
    EarliestFacts(rows, boundary, testEnd);
  }

  lemma {:induction false} WindowsSucceedExactlyWhen(rows: seq<Row>, l: Layout, k: nat)
    requires l.ts == Timestamps(rows) && l.plan.Ok()
    requires forall j: nat :: 1 <= j <= k ==> BlockFits(l, j)
    ensures var r := WindowsUpTo(rows, l.ts, l.purge, l.plan, k);
            && (r.Ok? <==> forall j: nat :: 1 <= j <= k ==> BlockOutlastsPurge(l, j))
            && (r.Ok? ==> |r.value| == k)
            && (r.Err? ==> exists j: nat :: 1 <= j <= k && !BlockOutlastsPurge(l, j) && r.error == EmptyTest(j)
                                            && forall i: nat :: 1 <= i < j ==> BlockOutlastsPurge(l, i))
  {
    if k > 0 {
      WindowsSucceedExactlyWhen(rows, l, k - 1);
      assert BlockFits(l, k);
      FoldSucceedsExactlyWhen(rows, l, k);
    }
  }

  lemma AllBlocksFit(rows: seq<Row>, config: Config)
    requires Rejection(rows, config).None?
    ensures forall k: nat :: 1 <= k <= config.folds ==> BlockFits(LayoutOf(rows, config), k)
  {
    BlocksTileTheTimestamps(rows, config);
  }

  /** Once the arguments are accepted, generation succeeds exactly when every
      test block lasts more than the purge interval; otherwise the error names
      the first block that does not. The "exceeded available timestamps" and
      "empty training set" errors cannot occur. */
  lemma GenerationSucceedsExactlyWhen(rows: seq<Row>, config: Config)
    requires Rejection(rows, config).None?
    ensures var l, r := LayoutOf(rows, config), Generate(rows, config);
            && (forall k: nat :: 1 <= k <= config.folds ==> BlockFits(l, k))
            && (r.Ok? <==> forall k: nat :: 1 <= k <= config.folds ==> BlockOutlastsPurge(l, k))
            && (r.Ok? ==> |r.value| == config.folds)
            && (r.Err? ==>
                  exists k: nat :: 1 <= k <= config.folds && !BlockOutlastsPurge(l, k) && r.error == EmptyTest(k)
                                   && forall i: nat :: 1 <= i < k ==> BlockOutlastsPurge(l, i))
  {
    AcceptedPlan(rows, config);
    AllBlocksFit(rows, config);
    WindowsSucceedExactlyWhen(rows, LayoutOf(rows, config), config.folds);
  }

  /** The window of fold `k` on a successful run is the fold's own window. */
  lemma {:induction false} WindowIsFoldWindow(rows: seq<Row>, l: Layout, k: nat, j: nat)
    requires l.ts == Timestamps(rows) && l.plan.Ok() && 1 <= j <= k
    requires forall i: nat :: 1 <= i <= k ==> BlockFits(l, i)
    requires WindowsUpTo(rows, l.ts, l.purge, l.plan, k).Ok?
    ensures |WindowsUpTo(rows, l.ts, l.purge, l.plan, k).value| == k
    ensures BlockFits(l, j)
    ensures FoldWindow(rows, l.ts, l.purge, j, l.plan.End(j - 1), l.plan.End(j))
            == Ok(WindowsUpTo(rows, l.ts, l.purge, l.plan, k).value[j - 1])
  {
    WindowsSucceedExactlyWhen(rows, l, k);
    WindowsSucceedExactlyWhen(rows, l, k - 1);
    if j < k {
      WindowIsFoldWindow(rows, l, k - 1, j);
    }
  }

  /** What the window of one fold says about its block, its boundaries and its
      row counts. */
  ghost predicate WindowFacts(rows: seq<Row>, l: Layout, k: nat, w: Window) {
    && BlockFits(l, k)
    && w.foldId == k
    && w.trainStart == l.ts[0]
    && w.trainEnd == l.ts[l.plan.End(k - 1)]
    && w.testEnd == l.ts[l.plan.End(k)]
    && w.trainStart <= w.trainEnd < w.testStart <= w.testEnd
    && l.ts[l.plan.End(k - 1) + 1] + l.purge < w.testStart
    && w.trainRows > 0 && w.testRows > 0 && w.purgedRows >= 0
    && w.trainRows == UpTo(rows, w.trainEnd)
    && w.trainRows + w.purgedRows + w.testRows == UpTo(rows, w.testEnd)
  }

  lemma FoldWindowFacts(rows: seq<Row>, l: Layout, k: nat)
    requires l.ts == Timestamps(rows) && l.purge >= 0 && BlockFits(l, k)
    requires FoldWindow(rows, l.ts, l.purge, k, l.plan.End(k - 1), l.plan.End(k)).Ok?
    ensures WindowFacts(rows, l, k, FoldWindow(rows, l.ts, l.purge, k, l.plan.End(k - 1), l.plan.End(k)).value)
  {
    var w := FoldWindow(rows, l.ts, l.purge, k, l.plan.End(k - 1), l.plan.End(k)).value;
    var boundary := l.ts[l.plan.End(k - 1) + 1] + l.purge;
    TimestampsFacts(rows);
    EarliestFacts(rows, boundary, w.testEnd);
    SelectFromEarliest(rows, rows, boundary, w.testEnd);
    BetweenSplits(rows, w.trainEnd, w.testStart - 1, w.testEnd);
  }

  /** Every window of a successful run satisfies its facts. */
  lemma EveryWindow(rows: seq<Row>, config: Config, k: nat)
    requires Generate(rows, config).Ok? && 1 <= k <= config.folds
    ensures |Generate(rows, config).value| == config.folds
    ensures WindowFacts(rows, LayoutOf(rows, config), k, Generate(rows, config).value[k - 1])
  {
    AcceptedPlan(rows, config);
    AllBlocksFit(rows, config);
    var l := LayoutOf(rows, config);
    WindowIsFoldWindow(rows, l, config.folds, k);
    FoldWindowFacts(rows, l, k);
  }

  /** The end of the last block is the last timestamp, so every row counts. */
  lemma LastBlockReachesEveryRow(rows: seq<Row>, config: Config)
    requires Rejection(rows, config).None?
    ensures var ts := LayoutOf(rows, config).ts; ts != [] && UpTo(rows, ts[|ts| - 1]) == |rows|
  {
    var ts := LayoutOf(rows, config).ts;
    TimestampsFacts(rows);
    forall r | r in rows ensures r.timestamp <= ts[|ts| - 1] {
      assert r.timestamp in ts;
    }
    UpToAll(rows, ts[|ts| - 1]);
  }

  /** Each fold trains on exactly what the fold before it trained on, purged and
      tested, and all folds together account for every row. */
  lemma RowsAreConserved(rows: seq<Row>, config: Config)
    requires Generate(rows, config).Ok?
    ensures var ws := Generate(rows, config).value;
            && |ws| == config.folds
            && (forall i, j :: 0 <= i && j == i + 1 < |ws| ==>
                  ws[j].trainRows == ws[i].trainRows + ws[i].purgedRows + ws[i].testRows)
            && (forall i, j :: 0 <= i && j == i + 1 < |ws| ==> ws[j].trainEnd == ws[i].testEnd)
            && ws[|ws| - 1].testEnd == LayoutOf(rows, config).ts[|LayoutOf(rows, config).ts| - 1]
            && ws[0].trainRows + Consumed(ws, |ws|) == |rows|
  {
    hide WindowsUpTo, UpTo, Timestamps, HasDuplicates;
    var ws, l := Generate(rows, config).value, LayoutOf(rows, config);
    EveryWindow(rows, config, 1);
    forall i, j | 0 <= i && j == i + 1 < |ws|
      ensures ws[j].trainEnd == ws[i].testEnd && ws[j].trainRows == ws[i].trainRows + ws[i].purgedRows + ws[i].testRows
    {
      EveryWindow(rows, config, i + 1);
      EveryWindow(rows, config, j + 1);
    }
    ConsumedTelescopes(ws, |ws|);
    EveryWindow(rows, config, |ws|);
    BlocksTileTheTimestamps(rows, config);
    LastBlockReachesEveryRow(rows, config);
  }

  /** Purged and test rows of the first `n` windows. */
  function Consumed(ws: seq<Window>, n: nat): int
    requires n <= |ws|
  {
    if n == 0 then 0 else Consumed(ws, n - 1) + ws[n - 1].purgedRows + ws[n - 1].testRows
  }

  lemma {:induction false} ConsumedTelescopes(ws: seq<Window>, n: nat)
    requires 1 <= n <= |ws|
    requires forall i, j :: 0 <= i && j == i + 1 < |ws| ==>
             ws[j].trainRows == ws[i].trainRows + ws[i].purgedRows + ws[i].testRows
    ensures ws[0].trainRows + Consumed(ws, n) == ws[n - 1].trainRows + ws[n - 1].purgedRows + ws[n - 1].testRows
  {
    if n > 1 {
      ConsumedTelescopes(ws, n - 1);
      assert ws[n - 1].trainRows == ws[n - 2].trainRows + ws[n - 2].purgedRows + ws[n - 2].testRows;
    } else {
      assert Consumed(ws, 0) == 0;
    }
  }

  /** Training and test rows of a fold are more than the purge interval apart. */
  lemma TestRowsAreOutOfReach(rows: seq<Row>, config: Config, k: nat, train: Row, test: Row)
    requires Generate(rows, config).Ok? && 1 <= k <= config.folds
    requires train in rows && test in rows
    requires |Generate(rows, config).value| == config.folds
    requires var w := Generate(rows, config).value[k - 1];
             train.timestamp <= w.trainEnd && w.testStart <= test.timestamp <= w.testEnd
    ensures test.timestamp - train.timestamp > config.purgeMinutes * MINUTE
  {
    EveryWindow(rows, config, k);
    TimestampsFacts(rows);
  }

  // ------------------------------------------------------------ the validator

  datatype ReportError =
    | NoWindows | ResultCountDiffers | FoldIdsNotContiguous | BadTrainTestBoundary | BadTestInterval
    | EmptyPartition | NegativePurgeCount | OverlappingTests

  /** The fields of one window that the validator looks at. */
  predicate WindowShape(w: Window) {
    && w.trainStart <= w.trainEnd < w.testStart <= w.testEnd
    && w.trainRows > 0 && w.testRows > 0 && w.purgedRows >= 0
  }

  ghost predicate ReportValid(windows: seq<Window>, results: nat) {
    && windows != []
    && |windows| == results
    && (forall i :: 0 <= i < |windows| ==> windows[i].foldId == i + 1 && WindowShape(windows[i]))
    && (forall i, j :: 0 <= i && j == i + 1 < |windows| ==> windows[i].testEnd < windows[j].testStart)
  }

  /** `validate_walk_forward_report`. */
  method ValidateReport(windows: seq<Window>, results: nat) returns (error: Option<ReportError>)
    ensures error.None? <==> ReportValid(windows, results)
  {
    if windows == [] {
      return Some(NoWindows);
    }
    if |windows| != results {
      return Some(ResultCountDiffers);
    }
    var previousTestEnd := None;
    var i := 0;
    while i < |windows|
      invariant 0 <= i <= |windows|
      invariant previousTestEnd == (if i == 0 then None else Some(windows[i - 1].testEnd))
      invariant forall j :: 0 <= j < i ==> windows[j].foldId == j + 1 && WindowShape(windows[j])
      invariant forall j, k :: 0 <= j && k == j + 1 < i ==> windows[j].testEnd < windows[k].testStart
    {
      var w := windows[i];
      if w.foldId != i + 1 {
        return Some(FoldIdsNotContiguous);
      }
      if w.trainStart > w.trainEnd || w.trainEnd >= w.testStart {
        return Some(BadTrainTestBoundary);
      }
      if w.testStart > w.testEnd {
        return Some(BadTestInterval);
      }
      if w.trainRows <= 0 || w.testRows <= 0 {
        return Some(EmptyPartition);
      }
      if w.purgedRows < 0 {
        return Some(NegativePurgeCount);
      }
      if previousTestEnd.Some? && w.testStart <= previousTestEnd.value {
        assert windows[i - 1].testEnd >= windows[i].testStart;
        return Some(OverlappingTests);
      }
      previousTestEnd := Some(w.testEnd);
      i := i + 1;
    }
    return None;
  }

  /** In a valid report no two test intervals meet, near or far apart. */
  lemma {:induction false} ValidReportTestsAreDisjoint(windows: seq<Window>, results: nat, i: nat, j: nat)
    requires ReportValid(windows, results) && i < j < |windows|
    ensures windows[i].testEnd < windows[j].testStart
    decreases j
  {
    if i + 1 < j {
      ValidReportTestsAreDisjoint(windows, results, i, j - 1);
      assert WindowShape(windows[j - 1]);
      assert windows[j - 1].testEnd < windows[j].testStart;
    }
  }

  /** Whatever the generator builds, the validator accepts. */
  lemma GeneratedWindowsAreValid(rows: seq<Row>, config: Config)
    requires Generate(rows, config).Ok?
    ensures ReportValid(Generate(rows, config).value, config.folds)
  {
    var ws := Generate(rows, config).value;
    EveryWindow(rows, config, 1);
    forall i | 0 <= i < |ws| ensures ws[i].foldId == i + 1 && WindowShape(ws[i]) {
      EveryWindow(rows, config, i + 1);
    }
    forall i, j | 0 <= i && j == i + 1 < |ws| ensures ws[i].testEnd < ws[j].testStart {
      EveryWindow(rows, config, i + 1);
      EveryWindow(rows, config, j + 1);
    }
  }

  // ------------------------------------------------------------ the evaluator

  /** What the caller's evaluator did with its copies of one fold's rows: the
      result and the test rows it left behind, or an exception. */
  datatype Evaluation = Evaluated(result: int, testAfter: seq<Row>) | EvaluatorRaised

  datatype EvaluationError =
    | NotGenerated(cause: WindowError) | EmptyFold | Leakage | EvaluatorFailed | TestMutated(fold: int) | InvalidReport

  datatype Report = Report(windows: seq<Window>, results: seq<int>)

  function Training(rows: seq<Row>, w: Window): seq<Row> {
    SelectUpTo(rows, w.trainEnd)
  }

  function SelectUpTo(rows: seq<Row>, x: int): seq<Row> {
    if rows == [] then [] else (if rows[0].timestamp <= x then [rows[0]] else []) + SelectUpTo(rows[1..], x)
  }

  lemma {:induction false} SelectUpToFacts(rows: seq<Row>, x: int)
    ensures |SelectUpTo(rows, x)| == UpTo(rows, x)
    ensures forall r :: r in SelectUpTo(rows, x) <==> r in rows && r.timestamp <= x
  {
    if rows != [] {
      SelectUpToFacts(rows[1..], x);
      assert forall r :: r in rows <==> r == rows[0] || r in rows[1..];
    }
  }

  /** Rows at or after the first test row, up to the last one. */
  function Testing(rows: seq<Row>, w: Window): seq<Row> {
    Select(rows, w.testStart - 1, w.testEnd)
  }

  function Latest(rows: seq<Row>): int
    requires rows != []
  {
    if |rows| == 1 then rows[0].timestamp
    else if Latest(rows[1..]) > rows[0].timestamp then Latest(rows[1..]) else rows[0].timestamp
  }

  function Soonest(rows: seq<Row>): int
    requires rows != []
  {
    if |rows| == 1 then rows[0].timestamp
    else if Soonest(rows[1..]) < rows[0].timestamp then Soonest(rows[1..]) else rows[0].timestamp
  }

  lemma {:induction false} ExtremesAreRows(rows: seq<Row>)
    requires rows != []
    ensures exists r :: r in rows && r.timestamp == Latest(rows)
    ensures exists r :: r in rows && r.timestamp == Soonest(rows)
  {
    assert rows[0] in rows;
    if |rows| > 1 {
      ExtremesAreRows(rows[1..]);
      var late :| late in rows[1..] && late.timestamp == Latest(rows[1..]);
      var soon :| soon in rows[1..] && soon.timestamp == Soonest(rows[1..]);
      assert late in rows && soon in rows;
    }
  }

  /** The mask "at or after the first test row" selects what the generator
      counted with "after the purge boundary". */
  lemma TestingMatchesTheGenerator(rows: seq<Row>, config: Config, k: nat)
    requires Generate(rows, config).Ok? && 1 <= k <= config.folds
    requires |Generate(rows, config).value| == config.folds
    ensures var w, l := Generate(rows, config).value[k - 1], LayoutOf(rows, config);
            && BlockFits(l, k)
            && Testing(rows, w) == Select(rows, l.ts[l.plan.End(k - 1) + 1] + l.purge, w.testEnd)
            && |Testing(rows, w)| == w.testRows
  {
    hide WindowsUpTo, Select, Between, UpTo, Timestamps;
    AcceptedPlan(rows, config);
    AllBlocksFit(rows, config);
    var w, l := Generate(rows, config).value[k - 1], LayoutOf(rows, config);
    WindowIsFoldWindow(rows, l, config.folds, k);
    var boundary := l.ts[l.plan.End(k - 1) + 1] + l.purge;
    EarliestFacts(rows, boundary, w.testEnd);
    SelectFromEarliest(rows, rows, boundary, w.testEnd);
    SelectFacts(rows, boundary, w.testEnd);
  }

  lemma AllTrainingPrecedesTesting(train: seq<Row>, test: seq<Row>, x: int)
    requires train != [] && test != []
    requires forall r :: r in train ==> r.timestamp <= x
    requires forall r :: r in test ==> x < r.timestamp
    ensures Latest(train) < Soonest(test)
  {
    hide Latest, Soonest;
    ExtremesAreRows(train);
    ExtremesAreRows(test);
  }

  /** The evaluator's partitions of a generated window are the rows the
      generator counted, neither is empty, and training ends before testing. */
  lemma PartitionsMatchTheGenerator(rows: seq<Row>, config: Config, k: nat)
    requires Generate(rows, config).Ok? && 1 <= k <= config.folds
    requires |Generate(rows, config).value| == config.folds
    ensures var w := Generate(rows, config).value[k - 1];
            && |Testing(rows, w)| == w.testRows > 0
            && |Training(rows, w)| == w.trainRows > 0
            && Latest(Training(rows, w)) < Soonest(Testing(rows, w))
  {
    hide Generate, Select, SelectUpTo, UpTo, Between, BlockFits, Latest, Soonest;
    EveryWindow(rows, config, k);
    TestingMatchesTheGenerator(rows, config, k);
    var w := Generate(rows, config).value[k - 1];
    SelectUpToFacts(rows, w.trainEnd);
    SelectFacts(rows, w.testStart - 1, w.testEnd);
    AllTrainingPrecedesTesting(Training(rows, w), Testing(rows, w), w.trainEnd);
  }

  /** The evaluator returned a result for this window and left its test rows alone. */
  predicate CleanEvaluation(rows: seq<Row>, w: Window, evaluator: (seq<Row>, seq<Row>) -> Evaluation) {
    var e := evaluator(Training(rows, w), Testing(rows, w));
    e.Evaluated? && e.testAfter == Testing(rows, w)
  }

  ghost predicate FirstUnclean(rows: seq<Row>, windows: seq<Window>, i: nat,
      evaluator: (seq<Row>, seq<Row>) -> Evaluation)
    requires i < |windows|
  {
    !CleanEvaluation(rows, windows[i], evaluator)
    && forall j :: 0 <= j < i ==> CleanEvaluation(rows, windows[j], evaluator)
  }

  /** How a fold that is not clean ends the evaluation. */
  function FoldError(rows: seq<Row>, w: Window, evaluator: (seq<Row>, seq<Row>) -> Evaluation): EvaluationError {
    if evaluator(Training(rows, w), Testing(rows, w)).EvaluatorRaised? then EvaluatorFailed
    else TestMutated(w.foldId)
  }

  /** `evaluate_walk_forward`: its empty-partition, leakage and report errors
      cannot occur; it succeeds exactly when generation does and the caller's
      evaluator behaves in every fold, and otherwise fails with the first fold in
      which it does not. */
  method EvaluateWalkForward(rows: seq<Row>, config: Config, evaluator: (seq<Row>, seq<Row>) -> Evaluation)
    returns (r: Result<Report, EvaluationError>)
    ensures r.Err? ==> !r.error.EmptyFold? && !r.error.Leakage? && !r.error.InvalidReport?
    ensures Generate(rows, config).Err? ==> r == Err(NotGenerated(Generate(rows, config).error))
    ensures Generate(rows, config).Ok? && r.Err? ==>
              exists i :: 0 <= i < |Generate(rows, config).value|
                && FirstUnclean(rows, Generate(rows, config).value, i, evaluator)
                && r.error == FoldError(rows, Generate(rows, config).value[i], evaluator)
    ensures r.Ok? <==> && Generate(rows, config).Ok?
                       && forall i :: 0 <= i < |Generate(rows, config).value| ==>
                                        CleanEvaluation(rows, Generate(rows, config).value[i], evaluator)
    ensures r.Ok? ==> && r.value.windows == Generate(rows, config).value
                      && ReportValid(r.value.windows, |r.value.results|)
                      && forall i :: 0 <= i < |r.value.windows| ==>
                                       var w := r.value.windows[i];
                                       evaluator(Training(rows, w), Testing(rows, w))
                                         == Evaluated(r.value.results[i], Testing(rows, w))
  {
    var generated := GenerateWindows(rows, config);
    if generated.Err? {
      return Err(NotGenerated(generated.error));
    }
    var windows := generated.value;
    GeneratedWindowsAreValid(rows, config);
    var results: seq<int> := [];
    var i := 0;
    while i < |windows|
      invariant 0 <= i <= |windows| && |results| == i
      invariant forall j :: 0 <= j < i ==>
                              var w := windows[j];
                              evaluator(Training(rows, w), Testing(rows, w)) == Evaluated(results[j], Testing(rows, w))
    {
      var window := windows[i];
      var train, test := Training(rows, window), Testing(rows, window);
      PartitionsMatchTheGenerator(rows, config, i + 1);
      if train == [] || test == [] {
        return Err(EmptyFold);
      }
      if Latest(train) >= Soonest(test) {
        return Err(Leakage);
      }
      var e := evaluator(train, test);
      if e.EvaluatorRaised? {
        assert FirstUnclean(rows, windows, i, evaluator);
        return Err(EvaluatorFailed);
      }
      if e.testAfter != test {
        assert FirstUnclean(rows, windows, i, evaluator);
        return Err(TestMutated(window.foldId));
      }
      results := results + [e.result];
      i := i + 1;
    }
    var error := ValidateReport(windows, |results|);
    if error.Some? {
      return Err(InvalidReport);
    }
    return Ok(Report(windows, results));
  }
}
