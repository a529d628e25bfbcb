/** Whole-run results of the historical replay: nothing is held overnight, every
    entry is fully accounted for, and the past never depends on the future. */
module ReplayRuns {
  import opened Common
  import opened Authority
  import opened ReplayModel
  import opened ReplayRows

  // ----------------------------------------------------------- prepared rows

  ghost predicate Ordered(rows: seq<Row>) {
    forall i, j :: 0 <= i < j < |rows| ==> rows[i].timestamp <= rows[j].timestamp
  }

  ghost predicate Distinct(rows: seq<Row>) {
    forall i, j :: 0 <= i < j < |rows| ==> !SameKey(rows[i], rows[j])
  }

  lemma {:induction false} InsertRowOrders(rows: seq<Row>, row: Row)
    requires Ordered(rows)
    ensures Ordered(InsertRow(rows, row))
    ensures forall r :: r in InsertRow(rows, row) <==> r == row || r in rows
    decreases |rows|
  {
    hide TextLess;
    if rows != [] && RowLess(row, rows[|rows| - 1]) {
      var front, last := rows[..|rows| - 1], rows[|rows| - 1];
      InsertRowOrders(front, row);
      var inserted := InsertRow(front, row);
      forall i | 0 <= i < |inserted| ensures inserted[i].timestamp <= last.timestamp {
        assert inserted[i] in inserted;
      }
      assert forall r :: r in rows <==> r == last || r in front;
    } else if rows != [] {
      assert rows[|rows| - 1].timestamp <= row.timestamp;
    }
  }

  lemma {:induction false} InsertRowKeepsDistinct(rows: seq<Row>, row: Row)
    requires Ordered(rows) && Distinct(rows) && forall r :: r in rows ==> !SameKey(r, row)
    ensures Distinct(InsertRow(rows, row))
    decreases |rows|
  {
    hide RowLess;
    if rows != [] && RowLess(row, rows[|rows| - 1]) {
      var front, last := rows[..|rows| - 1], rows[|rows| - 1];
      InsertRowKeepsDistinct(front, row);
      InsertRowOrders(front, row);
      var inserted := InsertRow(front, row);
      assert last in rows;
      forall i | 0 <= i < |inserted| ensures !SameKey(inserted[i], last) {
        assert inserted[i] in inserted;
        if inserted[i] != row {
          var n :| 0 <= n < |front| && front[n] == inserted[i];
          assert !SameKey(rows[n], rows[|rows| - 1]);
        }
      }
    }
  }

  lemma {:induction false} SortRowsFacts(rows: seq<Row>)
    requires Distinct(rows)
    ensures Ordered(SortRows(rows)) && Distinct(SortRows(rows))
    ensures forall r :: r in SortRows(rows) <==> r in rows
    decreases |rows|
  {
    if rows != [] {
      var front, last := rows[..|rows| - 1], rows[|rows| - 1];
      SortRowsFacts(front);
      InsertRowOrders(SortRows(front), last);
      InsertRowKeepsDistinct(SortRows(front), last);
      assert forall r :: r in rows <==> r == last || r in front;
    }
  }

  lemma RowOrder(a: Row, b: Row, c: Row)
    ensures RowLess(a, b) ==> !RowLess(b, a)
    ensures RowLess(a, b) && !RowLess(c, b) ==> RowLess(a, c)
    ensures SameKey(a, b) || RowLess(a, b) || RowLess(b, a)
  {
    TextOrder(a.symbol, b.symbol, c.symbol);
    TextOrder(a.symbol, b.symbol, a.symbol);
    TextOrder(b.symbol, c.symbol, b.symbol);
    hide TextLess;
  }

  /** No row belongs before an earlier one. */
  ghost predicate InRowOrder(rows: seq<Row>) {
    forall i, j :: 0 <= i < j < |rows| ==> !RowLess(rows[j], rows[i])
  }

  lemma {:induction false} InsertKeepsRowOrder(rows: seq<Row>, row: Row)
    requires InRowOrder(rows)
    ensures InRowOrder(InsertRow(rows, row))
    ensures forall r :: r in InsertRow(rows, row) <==> r == row || r in rows
    decreases |rows|
  {
    hide RowLess;
    if rows != [] {
      var front, last := rows[..|rows| - 1], rows[|rows| - 1];
      assert forall r :: r in rows <==> r == last || r in front;
      if RowLess(row, last) {
        InsertKeepsRowOrder(front, row);
        var inserted := InsertRow(front, row);
        forall i | 0 <= i < |inserted| ensures !RowLess(last, inserted[i]) {
          assert inserted[i] in inserted;
          RowOrder(row, last, last);
          if inserted[i] != row {
            var n :| 0 <= n < |front| && front[n] == inserted[i];
            assert !RowLess(rows[|rows| - 1], rows[n]);
          }
        }
      } else {
        forall i | 0 <= i < |rows| ensures !RowLess(row, rows[i]) {
          RowOrder(row, rows[i], last);
        }
      }
    }
  }

  lemma {:induction false} SortRowsInOrder(rows: seq<Row>)
    ensures InRowOrder(SortRows(rows))
    ensures forall r :: r in SortRows(rows) <==> r in rows
  {
    hide InsertRow;
    if rows != [] {
      var front, last := rows[..|rows| - 1], rows[|rows| - 1];
      SortRowsInOrder(front);
      InsertKeepsRowOrder(SortRows(front), last);
      assert forall r :: r in rows <==> r == last || r in front;
    }
  }

  lemma {:induction false} NormalizedSymbols(rows: seq<Row>)
    requires forall i :: 0 <= i < |rows| ==> RowOk(rows[i])
    ensures forall r :: r in NormalizeRows(rows) ==> r.symbol != "" && Normalize(r.symbol) == r.symbol
  {
    if rows != [] {
      var front, last := rows[..|rows| - 1], rows[|rows| - 1];
      assert RowOk(last);
      NormalizedSymbols(front);
      NormalizeIdempotent(last.symbol);
    }
  }

  /** `_prepare_rows` hands over rows ordered by time and then symbol, one per
      symbol and time, with canonical symbols. */
  lemma PreparedFacts(rows: seq<Row>)
    requires Prepare(rows).Ok?
    ensures var p := Prepare(rows).value;
            && Ordered(p) && Distinct(p)
            && (forall i, j :: 0 <= i < j < |p| ==> RowLess(p[i], p[j]))
            && (forall r :: r in p ==> r.symbol != "" && Normalize(r.symbol) == r.symbol)
  {
    hide RowLess, Normalize, RowOk;
    var normal := NormalizeRows(rows);
    var p := Prepare(rows).value;
    assert Distinct(normal);
    SortRowsFacts(normal);
    SortRowsInOrder(normal);
    NormalizedSymbols(rows);
    hide SameKey, SortRows, NormalizeRows;
    forall i, j | 0 <= i < j < |p| ensures RowLess(p[i], p[j]) {
      RowOrder(p[i], p[j], p[j]);
    }
  }

  // ----------------------------------------------------------- session ends

  ghost predicate Ends(x: Context, row: Row) {
    (row.symbol, row.timestamp) in x.sessionEnds
  }

  /** The context of a run over these rows, or over more that come later. */
  ghost predicate ContextFits(x: Context, rows: seq<Row>) {
    forall i :: 0 <= i < |rows| ==> (Ends(x, rows[i]) <==> LastOfItsDay(rows, rows[i]))
  }

  lemma OwnContextFits(c: Config, decide: Decide, rows: seq<Row>)
    requires rows != [] && Distinct(rows)
    ensures ContextFits(ContextOf(c, decide, rows), rows)
  {
  }

  /** The latest row of `rows[j]`'s symbol and day among the first `k`. */
  lemma {:induction false} LatestOfDay(rows: seq<Row>, j: nat, k: nat) returns (m: nat)
    requires j < k <= |rows|
    ensures m < k && rows[m].symbol == rows[j].symbol && IstDay(rows[m].timestamp) == IstDay(rows[j].timestamp)
    ensures forall i :: 0 <= i < k && SameDay(rows[i], rows[j]) ==> rows[i].timestamp <= rows[m].timestamp
    decreases k
  {
    m := j;
    var i := 0;
    while i < k
      invariant 0 <= i <= k
      invariant m < k && rows[m].symbol == rows[j].symbol && IstDay(rows[m].timestamp) == IstDay(rows[j].timestamp)
      invariant forall n :: 0 <= n < i && SameDay(rows[n], rows[j]) ==> rows[n].timestamp <= rows[m].timestamp
    {
      if rows[i].symbol == rows[j].symbol && IstDay(rows[i].timestamp) == IstDay(rows[j].timestamp)
         && rows[i].timestamp > rows[m].timestamp {
        m := i;
      }
      i := i + 1;
    }
  }

  lemma DayIsMonotone(a: int, b: int)
    requires a <= b
    ensures IstDay(a) <= IstDay(b)
  {
  }

  /** A row that does not end its session is followed by one that does, on the
      same day and before every row of a later day. */
  lemma SessionEndFollows(x: Context, rows: seq<Row>, j: nat) returns (m: nat)
    requires Ordered(rows) && ContextFits(x, rows)
    requires j < |rows| && !Ends(x, rows[j])
    ensures j < m < |rows| && rows[m].symbol == rows[j].symbol && Ends(x, rows[m])
    ensures IstDay(rows[m].timestamp) == IstDay(rows[j].timestamp)
  {
    m := LatestOfDay(rows, j, |rows|);
    assert LastOfItsDay(rows, rows[m]);
    assert !LastOfItsDay(rows, rows[j]);
    assert rows[m].timestamp > rows[j].timestamp;
  }

  // ------------------------------------------------------------ run invariant

  /** Row `j` could have opened the trade of `symbol` that is open after `k`
      rows: it does not end its session, nor does any later row of the symbol. */
  ghost predicate OpenedBy(x: Context, rows: seq<Row>, k: nat, symbol: string, entry: int, j: nat)
    requires k <= |rows|
  {
    && j < k && rows[j].symbol == symbol && rows[j].timestamp == entry
    && forall i :: j <= i < k && rows[i].symbol == symbol ==> !Ends(x, rows[i])
  }

  ghost predicate FromRow(rows: seq<Row>, k: nat, symbol: string, entry: int)
    requires k <= |rows|
  {
    exists j :: 0 <= j < k && rows[j].symbol == symbol && rows[j].timestamp == entry
  }

  /** What holds after `k` rows of a run that started flat with `ob` outcomes and
      `jb` journal entries already recorded. */
  ghost predicate Flowing(x: Context, rows: seq<Row>, k: nat, s: State, ob: nat, jb: nat)
    requires x.config.quantityStep > 0.0 && k <= |rows|
  {
    && ob <= |s.outcomes| && jb <= |s.journal|
    && (forall y :: y in s.open ==> exists j: nat :: OpenedBy(x, rows, k, y, s.open[y].order.timestamp, j))
    && (forall i :: ob <= i < |s.outcomes| ==>
          && IstDay(s.outcomes[i].entryTime) == IstDay(s.outcomes[i].exitTime)
          && FromRow(rows, k, s.outcomes[i].symbol, s.outcomes[i].entryTime))
    && (forall i :: jb <= i < |s.journal| ==> FromRow(rows, k, s.journal[i].symbol, s.journal[i].timestamp))
  }

  /** The exits of journal order `o`, counted from outcome `ob` on. */
  ghost predicate Accounted(c: Config, s: State, o: PaperOrder, ob: nat)
    requires c.quantityStep > 0.0 && ob <= |s.outcomes|
  {
    var exits := ExitsOf(s.outcomes[ob..], o.symbol, o.timestamp);
    if o.symbol in s.open && s.open[o.symbol].order.timestamp == o.timestamp
    then s.open[o.symbol].order == o && TradeOk(c, SlotOf(s, o.symbol), exits)
    else ExitsComplete(c, o.quantity, exits)
  }

  ghost predicate Ledger(c: Config, s: State, ob: nat, jb: nat)
    requires c.quantityStep > 0.0
  {
    && ob <= |s.outcomes| && jb <= |s.journal|
    && (forall i :: jb <= i < |s.journal| ==> Accounted(c, s, s.journal[i], ob))
    && (forall y :: y in s.open ==>
          exists i :: jb <= i < |s.journal| && s.journal[i] == s.open[y].order && s.journal[i].symbol == y)
  }

  /** The trade open on a row's symbol entered on the row's own day. */
  lemma OpenTradeIsFromToday(x: Context, rows: seq<Row>, k: nat, entry: int, j: nat)
    requires Ordered(rows) && ContextFits(x, rows) && k < |rows|
    requires OpenedBy(x, rows, k, rows[k].symbol, entry, j)
    ensures IstDay(entry) == IstDay(rows[k].timestamp)
  {
    hide IstDay, ContextFits;
    var m := SessionEndFollows(x, rows, j);
    DayIsMonotone(rows[j].timestamp, rows[k].timestamp);
    if IstDay(rows[k].timestamp) > IstDay(rows[j].timestamp) {
      if k <= m {
        DayIsMonotone(rows[k].timestamp, rows[m].timestamp);
      }
    }
  }

  lemma StepFlows(x: Context, rows: seq<Row>, k: nat, s: State, after: State, ob: nat, jb: nat)
    requires x.config.quantityStep > 0.0 && k < |rows|
    requires Ordered(rows) && ContextFits(x, rows)
    requires Flowing(x, rows, k, s, ob, jb) && RowEffect(x, s, after, rows[k], ob)
    ensures Flowing(x, rows, k + 1, after, ob, jb)
  {
    hide RowLedger, IstDay, ContextFits;
    var row, k1 := rows[k], k + 1;
    forall y | y in after.open ensures exists j: nat :: OpenedBy(x, rows, k1, y, after.open[y].order.timestamp, j) {
      if y != row.symbol {
        assert SlotOf(after, y) == SlotOf(s, y);
      }
      if y == row.symbol && NewOrder(s, after).Some? {
        assert OpenedBy(x, rows, k1, y, after.open[y].order.timestamp, k);
      } else {
        var j: nat :| OpenedBy(x, rows, k, y, s.open[y].order.timestamp, j);
        assert OpenedBy(x, rows, k1, y, after.open[y].order.timestamp, j);
      }
    }
    forall i | ob <= i < |after.outcomes|
      ensures IstDay(after.outcomes[i].entryTime) == IstDay(after.outcomes[i].exitTime)
      ensures FromRow(rows, k + 1, after.outcomes[i].symbol, after.outcomes[i].entryTime)
    {
      if i < |s.outcomes| {
        assert after.outcomes[i] == s.outcomes[i];
      } else {
        assert after.outcomes[i].symbol == row.symbol && row.symbol in s.open;
        var entry := s.open[row.symbol].order.timestamp;
        var j: nat :| OpenedBy(x, rows, k, row.symbol, entry, j);
        OpenTradeIsFromToday(x, rows, k, entry, j);
      }
    }
    forall i | jb <= i < |after.journal|
      ensures FromRow(rows, k + 1, after.journal[i].symbol, after.journal[i].timestamp)
    {
      if i < |s.journal| {
        assert after.journal[i] == s.journal[i];
      }
    }
  }

  /** A key that no earlier row had is new to the journal and to the outcomes. */
  lemma NewKey(rows: seq<Row>, k: nat, symbol: string, entry: int)
    requires Distinct(rows) && k < |rows| && FromRow(rows, k, symbol, entry)
    ensures !(symbol == rows[k].symbol && entry == rows[k].timestamp)
  {
    var j :| 0 <= j < k && rows[j].symbol == symbol && rows[j].timestamp == entry;
    assert !SameKey(rows[j], rows[k]);
  }

  /** An order that is over, or belongs to another symbol, keeps its account. */
  lemma OldOrderStaysAccounted(x: Context, rows: seq<Row>, k: nat, s: State, after: State, o: PaperOrder, ob: nat)
    requires x.config.quantityStep > 0.0 && k < |rows| && Distinct(rows)
    requires ob <= |s.outcomes| && RowEffect(x, s, after, rows[k], ob)
    requires Accounted(x.config, s, o, ob) && FromRow(rows, k, o.symbol, o.timestamp)
    ensures Accounted(x.config, after, o, ob)
  {
    hide TradeOk, ExitsComplete, ExitsOf, FromRow;
    NewKey(rows, k, o.symbol, o.timestamp);
    var row := rows[k];
    if o.symbol != row.symbol {
      assert SlotOf(after, o.symbol) == SlotOf(s, o.symbol);
      ExitsOfAppended(s.outcomes, after.outcomes, ob, o.symbol, o.timestamp);
    } else if o.symbol in s.open && s.open[o.symbol].order.timestamp == o.timestamp {
      assert RowLedger(x.config, s, after, o.symbol, ob);
    } else {
      ExitsOfAppended(s.outcomes, after.outcomes, ob, o.symbol, o.timestamp);
    }
  }

  /** A new trade starts with no exits. */
  lemma NewOrderIsAccounted(x: Context, rows: seq<Row>, k: nat, s: State, after: State, ob: nat, jb: nat)
    requires x.config.quantityStep > 0.0 && k < |rows| && Distinct(rows)
    requires Flowing(x, rows, k, s, ob, jb) && RowEffect(x, s, after, rows[k], ob)
    requires NewOrder(s, after).Some?
    ensures Accounted(x.config, after, NewOrder(s, after).value, ob)
  {
    hide RowLedger, ExitsComplete;
    var row := rows[k];
    forall i | ob <= i < |after.outcomes|
      ensures !(after.outcomes[i].symbol == row.symbol && after.outcomes[i].entryTime == row.timestamp)
    {
      if i < |s.outcomes| {
        assert after.outcomes[i] == s.outcomes[i];
        NewKey(rows, k, s.outcomes[i].symbol, s.outcomes[i].entryTime);
      } else {
        assert after.outcomes[i].symbol == row.symbol && row.symbol in s.open;
        var j: nat :| OpenedBy(x, rows, k, row.symbol, s.open[row.symbol].order.timestamp, j);
        assert FromRow(rows, k, row.symbol, s.open[row.symbol].order.timestamp);
        NewKey(rows, k, row.symbol, s.open[row.symbol].order.timestamp);
      }
    }
    ExitsOfAppended(after.outcomes[..ob], after.outcomes, ob, row.symbol, row.timestamp);
  }

  lemma StepKeepsLedger(x: Context, rows: seq<Row>, k: nat, s: State, after: State, ob: nat, jb: nat)
    requires x.config.quantityStep > 0.0 && k < |rows| && Distinct(rows)
    requires Flowing(x, rows, k, s, ob, jb) && RowEffect(x, s, after, rows[k], ob)
    requires Ledger(x.config, s, ob, jb)
    ensures Ledger(x.config, after, ob, jb)
  {
    hide Accounted, RowLedger, FromRow, OpenedBy;
    forall i | jb <= i < |after.journal| ensures Accounted(x.config, after, after.journal[i], ob) {
      if i < |s.journal| {
        assert after.journal[i] == s.journal[i];
        OldOrderStaysAccounted(x, rows, k, s, after, s.journal[i], ob);
      } else {
        NewOrderIsAccounted(x, rows, k, s, after, ob, jb);
      }
    }
    forall y | y in after.open
      ensures
        exists i :: jb <= i < |after.journal| && after.journal[i] == after.open[y].order && after.journal[i].symbol == y
    {
      if y == rows[k].symbol && NewOrder(s, after).Some? {
        assert after.journal[|s.journal|] == after.open[y].order;
      } else {
        if y != rows[k].symbol {
          assert SlotOf(after, y) == SlotOf(s, y);
        }
        var i :| jb <= i < |s.journal| && s.journal[i] == s.open[y].order && s.journal[i].symbol == y;
        assert after.journal[i] == s.journal[i];
      }
    }
  }

  /** The state of a successful replay after each row. */
  lemma {:induction false} ReplayFlows(x: Context, s0: State, rows: seq<Row>, all: seq<Row>)
    requires x.config.quantityStep > 0.0 && x.config.maxHolding > 0
    requires Ordered(all) && Distinct(all) && ContextFits(x, all) && rows <= all
    requires s0.open == map[]
    requires Replay(x, s0, rows).Ok?
    ensures var (s, steps) := Replay(x, s0, rows).value;
            && Flowing(x, all, |rows|, s, |s0.outcomes|, |s0.journal|)
            && Ledger(x.config, s, |s0.outcomes|, |s0.journal|)
            && |steps| == |rows|
            && s0.outcomes <= s.outcomes && s0.journal <= s.journal
            && (KeysMatch(s0) ==> KeysMatch(s))
    decreases |rows|
  {
    hide RowStep, RowEffect, Flowing, Ledger, ContextFits, KeysMatch;
    var ob, jb := |s0.outcomes|, |s0.journal|;
    if rows == [] {
      EmptyRunFlows(x, s0, all);
    } else {
      var n := |rows| - 1;
      ReplayFlows(x, s0, rows[..n], all);
      var (s, steps) := Replay(x, s0, rows[..n]).value;
      RowStepEffect(x, s, rows[n], ob);
      var after := RowStep(x, s, rows[n]).value.0;
      assert rows[n] == all[n];
      StepFlows(x, all, n, s, after, ob, jb);
      StepKeepsLedger(x, all, n, s, after, ob, jb);
      RowEffectGrows(x, s, after, rows[n], ob);
    }
  }

  lemma EmptyRunFlows(x: Context, s0: State, all: seq<Row>)
    requires x.config.quantityStep > 0.0 && s0.open == map[]
    ensures Flowing(x, all, 0, s0, |s0.outcomes|, |s0.journal|)
    ensures Ledger(x.config, s0, |s0.outcomes|, |s0.journal|)
  {
  }

  lemma RowEffectGrows(x: Context, s: State, after: State, row: Row, base: nat)
    requires x.config.quantityStep > 0.0 && RowEffect(x, s, after, row, base)
    ensures s.outcomes <= after.outcomes && s.journal <= after.journal && (KeysMatch(s) ==> KeysMatch(after))
  {
    hide KeysMatch;
  }

  // ------------------------------------------------------- nothing overnight

  lemma FlowingRunEndsFlat(x: Context, rows: seq<Row>, s: State, ob: nat, jb: nat)
    requires x.config.quantityStep > 0.0
    requires Ordered(rows) && ContextFits(x, rows) && Flowing(x, rows, |rows|, s, ob, jb)
    ensures s.open == map[]
  {
    hide ContextFits;
    forall y | y in s.open ensures false {
      var j: nat :| OpenedBy(x, rows, |rows|, y, s.open[y].order.timestamp, j);
      var m := SessionEndFollows(x, rows, j);
    }
  }

  lemma {:induction false} NothingLeftToClose(c: Config, s: State, rows: seq<Row>, k: nat)
    requires k <= |rows| && s.open == map[]
    ensures CloseRemaining(c, s, rows, k) == Ok(s)
  {
    if k > 0 {
      NothingLeftToClose(c, s, rows, k - 1);
    }
  }

  /** The facts of a whole run that starts without open trades, on any engine
      state: it ends without open trades again, so the next run starts flat too. */
  lemma RunFacts(c: Config, decide: Decide, s0: State, raw: seq<Row>) returns (rows: seq<Row>)
    requires c.quantityStep > 0.0 && c.maxHolding > 0 && s0.open == map[]
    requires Run(c, decide, s0, raw).Ok? && raw != []
    ensures Prepare(raw) == Ok(rows) && rows != [] && Ordered(rows) && Distinct(rows)
    ensures var x, after := ContextOf(c, decide, rows), Run(c, decide, s0, raw).value.0;
            && ContextFits(x, rows)
            && Replay(x, s0, rows) == Ok((after, Run(c, decide, s0, raw).value.1.steps))
            && after.outcomes == Run(c, decide, s0, raw).value.1.outcomes
            && after.open == map[]
            && Flowing(x, rows, |rows|, after, |s0.outcomes|, |s0.journal|)
            && Ledger(c, after, |s0.outcomes|, |s0.journal|)
            && s0.outcomes <= after.outcomes && s0.journal <= after.journal
  {
    hide Replay, CloseRemaining, Flowing, Ledger, SessionEnds, ContextFits, Ordered, Distinct;
    rows := Prepare(raw).value;
    PreparedFacts(raw);
    PreparedNonEmpty(raw);
    var x := ContextOf(c, decide, rows);
    OwnContextFits(c, decide, rows);
    ReplayFlows(x, s0, rows, rows);
    var s := Replay(x, s0, rows).value.0;
    FlowingRunEndsFlat(x, rows, s, |s0.outcomes|, |s0.journal|);
    NothingLeftToClose(c, s, rows, |rows|);
  }

  lemma {:induction false} PreparedNonEmpty(raw: seq<Row>)
    requires raw != [] && Prepare(raw).Ok?
    ensures Prepare(raw).value != []
  {
    SortRowsFacts(NormalizeRows(raw));
    var normal := NormalizeRows(raw);
    assert normal[|normal| - 1] in SortRows(normal);
  }

  /** No overnight position: every trade of a run exits on the IST day it
      entered, the run ends flat, and `_close_remaining_trades` closes nothing. */
  lemma NoOvernightPosition(c: Config, decide: Decide, s0: State, raw: seq<Row>)
    requires c.quantityStep > 0.0 && c.maxHolding > 0 && s0.open == map[]
    requires Run(c, decide, s0, raw).Ok?
    ensures var after := Run(c, decide, s0, raw).value.0;
            && after.open == map[]
            && |s0.outcomes| <= |after.outcomes|
            && forall i :: |s0.outcomes| <= i < |after.outcomes| ==>
                             IstDay(after.outcomes[i].entryTime) == IstDay(after.outcomes[i].exitTime)
    ensures raw != [] ==> && Prepare(raw).Ok? && Prepare(raw).value != []
                          && var x := ContextOf(c, decide, Prepare(raw).value);
                             && Replay(x, s0, Prepare(raw).value).Ok?
                             && Run(c, decide, s0, raw).value.0 == Replay(x, s0, Prepare(raw).value).value.0
  {
    hide Replay, CloseRemaining, Ledger, ContextFits, IstDay, SessionEnds;
    if raw != [] {
      var rows := RunFacts(c, decide, s0, raw);
    }
  }

  /** After every row of a symbol: flat if the row ends its session, and
      otherwise holding only a trade younger than the holding limit. */
  lemma RowLeavesYoungTradeOrNone(x: Context, s0: State, rows: seq<Row>, k: nat)
    requires x.config.quantityStep > 0.0 && x.config.maxHolding > 0 && k < |rows|
    requires Replay(x, s0, rows[..k + 1]).Ok?
    ensures var s, row := Replay(x, s0, rows[..k + 1]).value.0, rows[k];
            && (Ends(x, row) ==> row.symbol !in s.open)
            && (row.symbol in s.open ==> row.timestamp - s.open[row.symbol].order.timestamp < x.config.maxHolding)
  {
    hide RowStep;
    assert rows[..k + 1][..k] == rows[..k];
    var s := Replay(x, s0, rows[..k]).value.0;
    RowStepEffect(x, s, rows[k], 0);
  }

  // ----------------------------------------------------- quantity conservation

  function Total(quantities: seq<real>): real {
    if quantities == [] then 0.0 else quantities[0] + Total(quantities[1..])
  }

  predicate WholeSteps(c: Config, quantity: real, n: int) {
    quantity == n as real * c.quantityStep
  }

  /** Complete exits add up to the entry quantity, except that a dusty partial
      exit drops at most the tolerance. There is at most one partial exit: a
      whole number of steps, strictly between nothing and everything. */
  lemma CompleteExitsConserve(c: Config, quantity: real, exits: seq<real>)
    requires c.quantityStep > 0.0 && ExitsComplete(c, quantity, exits)
    ensures 1 <= |exits| <= 2
    ensures Total(exits) == quantity || (Dusty(c, quantity) && quantity - TOLERANCE <= Total(exits) < quantity)
    ensures !Dusty(c, quantity) ==> Total(exits) == quantity
    ensures exits != [quantity] ==>
              && 0.0 < exits[0] < quantity
              && exists n :: WholeSteps(c, exits[0], n)
  {
    hide Divisible;
    if exits != [quantity] {
      assert Divisible(c, quantity);
      PartialSizeIsWholeSteps(c, quantity);
      DivisibleBounds(c, quantity);
    }
    if |exits| == 2 {
      assert exits[1..] == [exits[1]] && exits[1..][1..] == [];
    } else {
      assert exits[1..] == [];
    }
  }

  lemma DivisibleBounds(c: Config, quantity: real)
    requires c.quantityStep > 0.0 && Divisible(c, quantity)
    ensures 0.0 < PartialSize(c, quantity) < quantity
  {
  }

  lemma PartialSizeIsWholeSteps(c: Config, quantity: real)
    requires c.quantityStep > 0.0
    ensures exists n :: WholeSteps(c, PartialSize(c, quantity), n)
  {
    hide PartialSteps;
    assert WholeSteps(c, PartialSize(c, quantity), PartialSteps(c, quantity));
  }

  /** Every entry of a run is fully accounted for: its outcomes are the whole
      quantity at once, or one partial exit and the rest; only a partial exit
      that would leave dust loses at most the tolerance. */
  lemma EveryEntryIsConserved(c: Config, decide: Decide, s0: State, raw: seq<Row>, i: nat)
    requires c.quantityStep > 0.0 && c.maxHolding > 0 && s0.open == map[]
    requires Run(c, decide, s0, raw).Ok?
    requires |s0.journal| <= i < |Run(c, decide, s0, raw).value.0.journal|
    ensures var after := Run(c, decide, s0, raw).value.0;
            var o := after.journal[i];
            && |s0.outcomes| <= |after.outcomes|
            && var exits := ExitsOf(after.outcomes[|s0.outcomes|..], o.symbol, o.timestamp);
               && ExitsComplete(c, o.quantity, exits)
               && (Total(exits) == o.quantity
                  || (Dusty(c, o.quantity) && o.quantity - TOLERANCE <= Total(exits) < o.quantity))
  {
    hide Replay, CloseRemaining, Flowing, ContextFits, SessionEnds, ExitsComplete, ExitsOf, Dusty, Total;
    if raw != [] {
      var rows := RunFacts(c, decide, s0, raw);
      var after := Run(c, decide, s0, raw).value.0;
      assert Accounted(c, after, after.journal[i], |s0.outcomes|);
      var o := after.journal[i];
      CompleteExitsConserve(c, o.quantity, ExitsOf(after.outcomes[|s0.outcomes|..], o.symbol, o.timestamp));
    }
  }

  /** What a trade still holds. */
  function Held(s: State, symbol: string): real {
    if symbol in s.open then s.open[symbol].quantity else 0.0
  }

  /** A target hit conserves the quantity of the trade exactly when it does not
      leave dust behind: a trade closed whole is conserved, and so is one whose
      partial exit leaves more than the tolerance. */
  lemma TargetExitConservesExactlyWhen(c: Config, s: State, row: Row, order: PaperOrder, levels: Levels)
    requires c.quantityStep > 0.0
    requires OpenTrade(s, row.symbol) == Some(order)
    requires TakeTarget(c, s, row, order, levels).Ok?
    ensures var after := TakeTarget(c, s, row, order, levels).value;
            && |after.outcomes| == |s.outcomes| + 1
            && (after.outcomes[|s.outcomes|].quantity + Held(after, row.symbol) == Held(s, row.symbol)
                <==> !Dusty(c, order.quantity))
  {
    hide ExitTrade, PartialSize;
    if Divisible(c, order.quantity) {
      ExitTradeExits(c, s, row.symbol, row.timestamp, levels.target, Some(PartialSize(c, order.quantity)));
    } else {
      ExitTradeExits(c, s, row.symbol, row.timestamp, levels.target, None);
    }
  }

  // ------------------------------------------------------------- causality

  lemma {:induction false} NormalizeConcat(a: seq<Row>, b: seq<Row>)
    ensures NormalizeRows(a + b) == NormalizeRows(a) + NormalizeRows(b)
    decreases |b|
  {
    if b == [] {
      assert a + b == a;
    } else {
      assert (a + b)[..|a + b| - 1] == a + b[..|b| - 1];
      NormalizeConcat(a, b[..|b| - 1]);
    }
  }

  lemma InsertSnoc(front: seq<Row>, last: Row, row: Row)
    ensures InsertRow(front + [last], row)
            == if RowLess(row, last) then InsertRow(front, row) + [last] else front + [last] + [row]
  {
    var all := front + [last];
    assert all[..|all| - 1] == front && all[|all| - 1] == last;
    hide RowLess;
  }

  lemma InsertAtEnd(a: seq<Row>, row: Row)
    requires forall r :: r in a ==> r.timestamp < row.timestamp
    ensures InsertRow(a, row) == a + [row]
  {
    if a != [] {
      assert a[|a| - 1] in a && !RowLess(row, a[|a| - 1]);
    }
  }

  lemma Regroup(a: seq<Row>, b: seq<Row>, row: Row)
    ensures (a + b) + [row] == a + (b + [row])
  {
  }

  lemma {:induction false} InsertAfter(a: seq<Row>, b: seq<Row>, row: Row)
    requires forall r :: r in a ==> r.timestamp < row.timestamp
    ensures InsertRow(a + b, row) == a + InsertRow(b, row)
    decreases |b|
  {
    hide RowLess;
    if b == [] {
      assert a + b == a && InsertRow(b, row) == [row];
      InsertAtEnd(a, row);
    } else {
      hide InsertRow;
      var front, last := b[..|b| - 1], b[|b| - 1];
      InsertAfter(a, front, row);
      assert b == front + [last];
      Regroup(a, front, last);
      InsertSnoc(front, last, row);
      InsertSnoc(a + front, last, row);
      Regroup(a, InsertRow(front, row), last);
      Regroup(a, front + [last], row);
    }
  }

  ghost predicate AllLater(a: seq<Row>, b: seq<Row>) {
    forall p, q :: p in a && q in b ==> p.timestamp < q.timestamp
  }

  /** Rows that are all later are sorted behind the others. */
  lemma {:induction false} SortConcat(a: seq<Row>, b: seq<Row>)
    requires AllLater(a, b) && Distinct(a)
    ensures SortRows(a + b) == SortRows(a) + SortRows(b)
    decreases |b|
  {
    hide InsertRow, Distinct;
    var all := a + b;
    if b == [] {
      assert all == a;
    } else {
      var front, last := b[..|b| - 1], b[|b| - 1];
      assert all[|all| - 1] == last && all[..|all| - 1] == a + front;
      assert last in b && forall q :: q in front ==> q in b;
      SortConcat(a, front);
      SortRowsFacts(a);
      InsertAfter(SortRows(a), SortRows(front), last);
    }
  }

  /** All rows of `b` fall on later IST days than all rows of `a`. */
  ghost predicate LaterDays(a: seq<Row>, b: seq<Row>) {
    forall p, q :: p in a && q in b ==> IstDay(p.timestamp) < IstDay(q.timestamp)
  }

  lemma LaterDaysAreLater(a: seq<Row>, b: seq<Row>)
    requires LaterDays(a, b)
    ensures AllLater(a, b)
  {
    forall p, q | p in a && q in b ensures p.timestamp < q.timestamp {
      if q.timestamp <= p.timestamp {
        DayIsMonotone(q.timestamp, p.timestamp);
      }
    }
  }

  lemma {:induction false} NormalizedRow(rows: seq<Row>, r: Row)
    requires r in NormalizeRows(rows)
    ensures exists q :: q in rows && q.timestamp == r.timestamp
    decreases |rows|
  {
    var last := rows[|rows| - 1];
    if r == last.(symbol := Normalize(last.symbol)) {
      assert last in rows;
    } else {
      NormalizedRow(rows[..|rows| - 1], r);
      var q :| q in rows[..|rows| - 1] && q.timestamp == r.timestamp;
      assert q in rows;
    }
  }

  lemma LaterDaysNormalized(a: seq<Row>, b: seq<Row>)
    requires LaterDays(a, b)
    ensures LaterDays(NormalizeRows(a), NormalizeRows(b))
  {
    hide IstDay;
    forall p, q | p in NormalizeRows(a) && q in NormalizeRows(b) ensures IstDay(p.timestamp) < IstDay(q.timestamp) {
      NormalizedRow(a, p);
      NormalizedRow(b, q);
    }
  }

  lemma DistinctParts(a: seq<Row>, b: seq<Row>)
    requires !HasDuplicates(a + b)
    ensures !HasDuplicates(a) && Distinct(a) && Distinct(b)
  {
    hide SameKey;
    forall i, j | 0 <= i < j < |a| ensures !SameKey(a[i], a[j]) {
      assert (a + b)[i] == a[i] && (a + b)[j] == a[j];
    }
    forall i, j | 0 <= i < j < |b| ensures !SameKey(b[i], b[j]) {
      assert (a + b)[|a| + i] == b[i] && (a + b)[|a| + j] == b[j];
    }
  }

  /** The prepared rows of an extended input are the old ones and then the new. */
  lemma PrepareExtends(a: seq<Row>, b: seq<Row>) returns (later: seq<Row>)
    requires Prepare(a + b).Ok? && LaterDays(a, b)
    ensures Prepare(a).Ok? && Prepare(a + b).value == Prepare(a).value + later
    ensures LaterDays(Prepare(a).value, later)
  {
    hide IstDay, RowOk, SortRows, NormalizeRows, SameKey, AllLater;
    forall i | 0 <= i < |a| ensures RowOk(a[i]) {
      assert (a + b)[i] == a[i];
    }
    NormalizeConcat(a, b);
    var na, nb := NormalizeRows(a), NormalizeRows(b);
    DistinctParts(na, nb);
    LaterDaysNormalized(a, b);
    LaterDaysAreLater(na, nb);
    SortConcat(na, nb);
    SortRowsFacts(na);
    SortRowsFacts(nb);
    later := SortRows(nb);
  }

  /** Later days do not change which earlier rows end their session, and every
      row that does not end its session precedes the final timestamp. */
  lemma SessionEndsAreStable(a: seq<Row>, b: seq<Row>, i: nat)
    requires i < |a| && LaterDays(a, b)
    ensures LastOfItsDay(a + b, a[i]) <==> LastOfItsDay(a, a[i])
  {
    hide IstDay;
    var all := a + b;
    assert forall n :: 0 <= n < |a| ==> all[n] == a[n];
    forall n | |a| <= n < |all| ensures IstDay(a[i].timestamp) < IstDay(all[n].timestamp) {
      assert all[n] == b[n - |a|] && a[i] in a && b[n - |a|] in b;
    }
    if LastOfItsDay(all, a[i]) {
      forall n | 0 <= n < |a| && a[n].symbol == a[i].symbol && IstDay(a[n].timestamp) == IstDay(a[i].timestamp)
        ensures a[n].timestamp <= a[i].timestamp
      {
        assert all[n] == a[n];
      }
    }
  }

  lemma {:induction false} LatestTimestampFacts(rows: seq<Row>, r: Row)
    requires r in rows
    ensures r.timestamp <= LatestTimestamp(rows)
    decreases |rows|
  {
    if |rows| > 1 && r != rows[|rows| - 1] {
      LatestTimestampFacts(rows[..|rows| - 1], r);
    }
  }

  lemma NotSessionEndIsNotFinal(rows: seq<Row>, r: Row)
    requires r in rows && !LastOfItsDay(rows, r)
    ensures r.timestamp < LatestTimestamp(rows)
  {
    var n :| 0 <= n < |rows| && rows[n].symbol == r.symbol && IstDay(rows[n].timestamp) == IstDay(r.timestamp)
             && rows[n].timestamp > r.timestamp;
    LatestTimestampFacts(rows, rows[n]);
  }

  /** Two contexts let the same decisions through on these rows. */
  ghost predicate SameGuards(x: Context, y: Context, rows: seq<Row>) {
    && x.config == y.config && x.decide == y.decide
    && forall i :: 0 <= i < |rows| ==>
                     && (Ends(x, rows[i]) <==> Ends(y, rows[i]))
                     && (!Ends(x, rows[i]) ==>
                           rows[i].timestamp < x.finalTimestamp && rows[i].timestamp < y.finalTimestamp)
  }

  lemma SameGuardsSameStep(x: Context, y: Context, s: State, row: Row)
    requires x.config.quantityStep > 0.0 && x.config == y.config && x.decide == y.decide
    requires Ends(x, row) <==> Ends(y, row)
    requires !Ends(x, row) ==> row.timestamp < x.finalTimestamp && row.timestamp < y.finalTimestamp
    ensures RowStep(x, s, row) == RowStep(y, s, row)
  {
    hide ManageOpenTrade, CloseExpired, PortfolioOf, HandleAuthorised, Authorise, EnterDay;
  }

  lemma {:induction false} SameGuardsSameReplay(x: Context, y: Context, s: State, rows: seq<Row>)
    requires x.config.quantityStep > 0.0 && SameGuards(x, y, rows)
    ensures Replay(x, s, rows) == Replay(y, s, rows)
    decreases |rows|
  {
    hide RowStep, Ends;
    if rows != [] {
      var n := |rows| - 1;
      SameGuardsSameReplay(x, y, s, rows[..n]);
      assert Ends(x, rows[n]) <==> Ends(y, rows[n]);
      if Replay(x, s, rows[..n]).Ok? {
        SameGuardsSameStep(x, y, Replay(x, s, rows[..n]).value.0, rows[n]);
      }
    }
  }

  lemma ExtendedContextHasSameGuards(c: Config, decide: Decide, a: seq<Row>, later: seq<Row>)
    requires a != [] && LaterDays(a, later) && Distinct(a + later)
    ensures SameGuards(ContextOf(c, decide, a), ContextOf(c, decide, a + later), a)
  {
    hide IstDay, LastOfItsDay, LatestTimestamp, SessionEnds;
    var all := a + later;
    OwnContextFits(c, decide, all);
    forall i, j | 0 <= i < j < |a| ensures !SameKey(a[i], a[j]) {
      assert all[i] == a[i] && all[j] == a[j];
    }
    OwnContextFits(c, decide, a);
    forall i | 0 <= i < |a|
      ensures Ends(ContextOf(c, decide, a), a[i]) <==> Ends(ContextOf(c, decide, all), a[i])
      ensures !Ends(ContextOf(c, decide, a), a[i]) ==>
                a[i].timestamp < LatestTimestamp(a) && a[i].timestamp < LatestTimestamp(all)
    {
      assert all[i] == a[i];
      SessionEndsAreStable(a, later, i);
      if !Ends(ContextOf(c, decide, a), a[i]) {
        NotSessionEndIsNotFinal(a, a[i]);
        NotSessionEndIsNotFinal(all, a[i]);
      }
    }
  }

  /** Causality row by row, also inside a day: adding later rows leaves the
      replay of the first `k` rows as it was, whatever it does, as long as none
      of these rows ends its session in one input and not in the other. A row
      that ended its session before the new rows came is where the look-ahead
      begins. */
  lemma ReplayAgreesUntilASessionEndMoves(c: Config, decide: Decide, s0: State, a: seq<Row>, b: seq<Row>, k: nat)
    requires c.quantityStep > 0.0 && k <= |a| && a != []
    requires Distinct(a + b)
    requires forall i :: 0 <= i < k ==> (LastOfItsDay(a + b, a[i]) <==> LastOfItsDay(a, a[i]))
    ensures Replay(ContextOf(c, decide, a), s0, a[..k]) == Replay(ContextOf(c, decide, a + b), s0, a[..k])
  {
    hide LastOfItsDay, LatestTimestamp, SessionEnds, SameKey;
    var all := a + b;
    var x, y := ContextOf(c, decide, a), ContextOf(c, decide, all);
    OwnContextFits(c, decide, all);
    forall i, j | 0 <= i < j < |a| ensures !SameKey(a[i], a[j]) {
      assert all[i] == a[i] && all[j] == a[j];
    }
    OwnContextFits(c, decide, a);
    forall i | 0 <= i < k
      ensures Ends(x, a[i]) <==> Ends(y, a[i])
      ensures !Ends(x, a[i]) ==> a[i].timestamp < x.finalTimestamp && a[i].timestamp < y.finalTimestamp
    {
      assert all[i] == a[i];
      if !Ends(x, a[i]) {
        NotSessionEndIsNotFinal(a, a[i]);
        NotSessionEndIsNotFinal(all, a[i]);
      }
    }
    SameGuardsSameReplay(x, y, s0, a[..k]);
  }

  /** In one direction the session ends never move: a row that does not end its
      session still does not when later rows come. */
  lemma SessionEndsOnlyMoveLater(a: seq<Row>, b: seq<Row>, i: nat)
    requires i < |a| && LastOfItsDay(a + b, a[i])
    ensures LastOfItsDay(a, a[i])
  {
    hide IstDay;
    forall n | 0 <= n < |a| && SameDay(a[n], a[i]) ensures a[n].timestamp <= a[i].timestamp {
      assert (a + b)[n] == a[n];
    }
  }

  /** The replay of a prefix is a prefix of the replay, also in its outcomes. */
  lemma {:induction false} ReplayPrefix(x: Context, s: State, rows: seq<Row>, k: nat)
    requires x.config.quantityStep > 0.0 && x.config.maxHolding > 0 && k <= |rows| && Replay(x, s, rows).Ok?
    ensures Replay(x, s, rows[..k]).Ok?
    ensures var short, long := Replay(x, s, rows[..k]).value, Replay(x, s, rows).value;
            short.1 <= long.1 && short.0.outcomes <= long.0.outcomes
    decreases |rows|
  {
    hide RowStep, RowEffect;
    if k == |rows| {
      assert rows[..k] == rows;
    } else {
      var n := |rows| - 1;
      assert rows[..n][..k] == rows[..k];
      ReplayPrefix(x, s, rows[..n], k);
      var before := Replay(x, s, rows[..n]).value.0;
      RowStepEffect(x, before, rows[n], 0);
      RowEffectGrows(x, before, RowStep(x, before, rows[n]).value.0, rows[n], 0);
    }
  }

  /** Causality: appending rows of later IST days to an input changes nothing
      about the earlier days. If the longer run succeeds, so does the shorter,
      and its steps and outcomes are exactly the beginning of the longer's. */
  lemma ReplayIsCausal(c: Config, decide: Decide, s0: State, a: seq<Row>, b: seq<Row>)
    requires c.quantityStep > 0.0 && c.maxHolding > 0 && s0.open == map[]
    requires LaterDays(a, b)
    requires Run(c, decide, s0, a + b).Ok?
    ensures Run(c, decide, s0, a).Ok?
    ensures var short, long := Run(c, decide, s0, a).value.1, Run(c, decide, s0, a + b).value.1;
            short.steps <= long.steps && short.outcomes <= long.outcomes
  {
    hide Replay, CloseRemaining, Prepare, Flowing, Ledger, ContextFits, SessionEnds, LatestTimestamp, LaterDays;
    if a == [] {
      EmptyInput(c, decide, s0);
      return;
    }
    var all := RunFacts(c, decide, s0, a + b);
    var later := PrepareExtends(a, b);
    var rows := Prepare(a).value;
    PreparedFacts(a);
    PreparedNonEmpty(a);
    ExtendedContextHasSameGuards(c, decide, rows, later);
    var x, y := ContextOf(c, decide, rows), ContextOf(c, decide, all);
    SameGuardsSameReplay(x, y, s0, rows);
    ReplayPrefix(y, s0, all, |rows|);
    assert all[..|rows|] == rows;
    OwnContextFits(c, decide, rows);
    ReplayFlows(x, s0, rows, rows);
    var s := Replay(x, s0, rows).value.0;
    FlowingRunEndsFlat(x, rows, s, |s0.outcomes|, |s0.journal|);
    NothingLeftToClose(c, s, rows, |rows|);
  }

  lemma EmptyInput(c: Config, decide: Decide, s0: State)
    requires c.quantityStep > 0.0
    ensures Run(c, decide, s0, []) == Ok((s0, BacktestResult([], [])))
  {
  }
}
