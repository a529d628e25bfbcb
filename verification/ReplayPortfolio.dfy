/** What the replay tells strategy and risk about the portfolio, and what it
    takes from the input rows, as relations between the numbers themselves. */
module ReplayPortfolio {
  import opened Common
  import opened Authority
  import opened ReplayModel
  import opened ReplayRows
  import opened ReplayRuns

  // ------------------------------------------------------------ days and costs

  /** The IST day changes at 18:30 UTC: 86400 s a day, shifted by 19800 s. */
  lemma IstDayIs(timestamp: int, day: int)
    ensures IstDay(timestamp) == day
            <==> 86_400_000_000_000 * day <= timestamp + 19_800_000_000_000 < 86_400_000_000_000 * (day + 1)
  {
  }

  /** A fee is `feeBps` ten-thousandths of the value that changes hands. */
  lemma FeeIsBps(c: Config, fill: real, units: real)
    ensures Fee(c, fill, units) * 10000.0 == fill * units * c.feeBps
  {
  }

  /** What a price move is worth to a long and to a short trade. */
  lemma MoveIsSigned(a: real, b: real, units: real)
    ensures MoveValue(Long, a, b, units) == (b - a) * units && MoveValue(Short, a, b, units) == (a - b) * units
  {
  }

  /** Marking widens the extremes of the trade to include the move, no further. */
  lemma MarkWidensTheExtremes(s: State, symbol: string, timestamp: int, price: real)
    requires Mark(s, symbol, timestamp, price).Ok?
    ensures symbol in s.open && symbol in Mark(s, symbol, timestamp, price).value.open
    ensures var r, marked := s.open[symbol], Mark(s, symbol, timestamp, price).value.open[symbol];
            var move := MoveValue(r.order.direction, r.order.fillPrice, price, r.quantity);
            && marked.mae <= move <= marked.mfe && marked.mae <= r.mae && r.mfe <= marked.mfe
            && (marked.mae == r.mae || marked.mae == move) && (marked.mfe == r.mfe || marked.mfe == move)
            && timestamp >= r.order.timestamp
  {
    hide MoveValue;
  }

  /** An exit reports the extremes that its trade has reached, and what is left
      of the trade starts over without any. */
  lemma ExitsReportTheExtremes(s: State, symbol: string, timestamp: int, price: real, quantity: real,
                               exitFees: real, exitSlippage: real, reference: real)
    requires ClosePartial(s, symbol, timestamp, price, quantity, exitFees, exitSlippage, reference).Ok?
    ensures symbol in s.open
    ensures var r := s.open[symbol];
            var after := ClosePartial(s, symbol, timestamp, price, quantity, exitFees, exitSlippage, reference).value;
            && |after.outcomes| == |s.outcomes| + 1
            && var o := after.outcomes[|s.outcomes|];
            && o.mae == r.mae && o.mfe == r.mfe && o.quantity == quantity
            && (symbol in after.open ==>
                  && after.open[symbol].mae == 0.0 == after.open[symbol].mfe
                  && after.open[symbol].quantity + o.quantity == r.quantity)
            && (symbol !in after.open <==> r.quantity <= o.quantity + 0.000000000001)
  {
    hide MoveValue, Share;
  }

  // ------------------------------------------------------------ the portfolio

  /** The outcomes and the orders of one IST day. */
  ghost function ExitsOn(outcomes: seq<TradeOutcome>, day: int): seq<TradeOutcome> {
    if outcomes == [] then []
    else
      var rest, last := ExitsOn(outcomes[..|outcomes| - 1], day), outcomes[|outcomes| - 1];
      if IstDay(last.exitTime) == day then rest + [last] else rest
  }

  ghost function EntriesOn(journal: seq<PaperOrder>, day: int): set<nat> {
    set i | 0 <= i < |journal| && IstDay(journal[i].timestamp) == day
  }

  lemma {:induction false} NetOfTheDay(outcomes: seq<TradeOutcome>, day: int)
    ensures NetPnlOn(outcomes, day) == NetPnl(ExitsOn(outcomes, day))
  {
    hide IstDay;
    if outcomes != [] {
      NetOfTheDay(outcomes[..|outcomes| - 1], day);
      var rest := ExitsOn(outcomes[..|outcomes| - 1], day);
      assert (rest + [outcomes[|outcomes| - 1]])[..|rest|] == rest;
    }
  }

  lemma {:induction false} OrdersOfTheDay(journal: seq<PaperOrder>, day: int)
    ensures OrdersOn(journal, day) == |EntriesOn(journal, day)|
  {
    hide IstDay;
    if journal != [] {
      var n := |journal| - 1;
      OrdersOfTheDay(journal[..n], day);
      var before := EntriesOn(journal[..n], day);
      assert EntriesOn(journal, day) == before + (if IstDay(journal[n].timestamp) == day then {n} else {});
      assert n !in before;
    }
  }

  /** What one open trade is worth at its last mark, or at its fill before any. */
  ghost function ValueOf(s: State, symbol: string): real
    requires symbol in s.open
  {
    Times(s.open[symbol].quantity, LastMark(s, symbol))
  }

  ghost function LastMark(s: State, symbol: string): real
    requires symbol in s.open
  {
    if symbol in s.marks then s.marks[symbol] else s.open[symbol].order.fillPrice
  }

  /** What it would net if it were closed there for nothing. */
  ghost function GainOf(s: State, symbol: string): real
    requires symbol in s.open
  {
    var r := s.open[symbol];
    MoveValue(r.order.direction, r.order.fillPrice, LastMark(s, symbol), r.quantity) - r.entryFees
  }

  lemma OneMoreKey(s: State, front: seq<string>, last: string)
    requires last in s.open
    ensures Gross(s, front + [last]) == Gross(s, front) + ValueOf(s, last)
    ensures Unrealized(s, front + [last]) == Unrealized(s, front) + GainOf(s, last)
  {
    hide Times, MoveValue;
    var keys := front + [last];
    assert keys[..|keys| - 1] == front && keys[|keys| - 1] == last;
  }

  /** Each open trade counts once in the exposure and in the unrealised result,
      wherever it stands in the list. */
  lemma {:induction false} EveryTradeCountsOnce(s: State, keys: seq<string>, symbol: string)
    requires forall i, j :: 0 <= i < j < |keys| ==> keys[i] != keys[j]
    requires symbol in keys && forall k :: k in keys ==> k in s.open
    ensures Gross(s, keys) == Gross(s, Without(keys, symbol)) + ValueOf(s, symbol)
    ensures Unrealized(s, keys) == Unrealized(s, Without(keys, symbol)) + GainOf(s, symbol)
  {
    hide Gross, Unrealized, ValueOf, GainOf, Without;
    var n := |keys| - 1;
    var front, last := keys[..n], keys[n];
    assert keys == front + [last] && last in keys;
    WithoutSnoc(front, last, symbol);
    OneMoreKey(s, front, last);
    if symbol == last {
      WithoutAbsent(front, symbol);
      assert front + [] == front;
    } else {
      EveryTradeCountsOnce(s, front, symbol);
      OneMoreKey(s, Without(front, symbol), last);
    }
  }

  lemma {:induction false} WithoutSnoc(front: seq<string>, last: string, symbol: string)
    ensures Without(front + [last], symbol) == Without(front, symbol) + (if last == symbol then [] else [last])
  {
    if front == [] {
      assert [] + [last] == [last] && [last][1..] == [];
    } else {
      WithoutSnoc(front[1..], last, symbol);
      assert (front + [last])[1..] == front[1..] + [last];
    }
  }

  lemma {:induction false} WithoutAbsent(keys: seq<string>, symbol: string)
    requires symbol !in keys
    ensures Without(keys, symbol) == keys
  {
    if keys != [] {
      WithoutAbsent(keys[1..], symbol);
    }
  }

  /** What strategy and risk are told about a row's portfolio. */
  lemma PortfolioSays(c: Config, s: State, timestamp: int, symbol: string)
    requires KeysMatch(s)
    ensures var p := PortfolioOf(c, s, timestamp, symbol);
            var day := IstDay(timestamp);
            && p.equity == Max(0.000000001, c.startingEquity + NetPnl(s.outcomes) + p.unrealizedPnl)
            && p.realizedPnl == NetPnl(ExitsOn(s.outcomes, day)) && p.tradesToday == |EntriesOn(s.journal, day)|
            && p.openPositions == |s.open| && (p.symbolAlreadyOpen <==> symbol in s.open)
            && p.dayStartEquity == s.dayStartEquity
    ensures var p := PortfolioOf(c, s, timestamp, symbol);
            && (s.open == map[] ==> p.grossExposure == 0.0 && p.unrealizedPnl == 0.0)
            && (forall k :: k in s.open ==>
                  && p.grossExposure == Gross(s, Without(s.openKeys, k)) + ValueOf(s, k)
                  && p.unrealizedPnl == Unrealized(s, Without(s.openKeys, k)) + GainOf(s, k))
  {
    var day := IstDay(timestamp);
    NetOfTheDay(s.outcomes, day);
    OrdersOfTheDay(s.journal, day);
    KeysCount(s.openKeys, s.open.Keys);
    forall k | k in s.open
      ensures Gross(s, s.openKeys) == Gross(s, Without(s.openKeys, k)) + ValueOf(s, k)
      ensures Unrealized(s, s.openKeys) == Unrealized(s, Without(s.openKeys, k)) + GainOf(s, k)
    {
      EveryTradeCountsOnce(s, s.openKeys, k);
    }
    assert s.open == map[] ==> s.openKeys == [] by {
      if s.openKeys != [] {
        assert s.openKeys[0] in s.openKeys;
      }
    }
  }

  lemma {:induction false} KeysCount(keys: seq<string>, all: set<string>)
    requires forall i, j :: 0 <= i < j < |keys| ==> keys[i] != keys[j]
    requires forall k :: k in keys <==> k in all
    ensures |keys| == |all|
  {
    if keys == [] {
      assert all == {};
    } else {
      var n := |keys| - 1;
      assert keys == keys[..n] + [keys[n]];
      KeysCount(keys[..n], all - {keys[n]});
    }
  }

  /** A day is entered once: its opening equity is fixed then, from what has been
      realised, and stays for the rest of the day. */
  lemma DayOpensOnce(c: Config, s: State, timestamp: int)
    ensures var e := EnterDay(c, s, timestamp);
            && e.activeDay == Some(IstDay(timestamp))
            && (s.activeDay == e.activeDay ==> e.dayStartEquity == s.dayStartEquity)
            && (s.activeDay != e.activeDay ==>
                  e.dayStartEquity == Max(0.000000001, c.startingEquity + NetPnl(s.outcomes)))
            && e == s.(activeDay := e.activeDay, dayStartEquity := e.dayStartEquity)
  {
    hide IstDay;
  }

  /** The assessment of a row is what strategy and risk answer to that row and
      the portfolio its exits left, on the day it opens or continues. */
  lemma RowsAreAssessed(x: Context, s: State, row: Row)
    requires x.config.quantityStep > 0.0 && RowStep(x, s, row).Ok?
    ensures ExitPhase(x, s, row).Ok?
    ensures var e := EnterDay(x.config, ExitPhase(x, s, row).value, row.timestamp);
            x.decide(row, PortfolioOf(x.config, e, row.timestamp, row.symbol))
              == Some(RowStep(x, s, row).value.1.assessment)
  {
    hide ExitPhase, EnterDay, PortfolioOf, Authorise, HandleAuthorised;
  }

  // ------------------------------------------------------------ prepared rows

  /** What is wrong with a single row. */
  ghost predicate AcceptableRow(row: Row) {
    && Strip(row.symbol) != "" && row.close > 0.0
    && match (row.low, row.high)
       case (Some(low), Some(high)) => 0.0 < low <= high
       case _ => true
  }

  ghost predicate SameSlot(a: Row, b: Row) {
    Normalize(a.symbol) == Normalize(b.symbol) && a.timestamp == b.timestamp
  }

  lemma {:induction false} NormalizedRows(rows: seq<Row>)
    ensures |NormalizeRows(rows)| == |rows|
    ensures forall i :: 0 <= i < |rows| ==> NormalizeRows(rows)[i] == rows[i].(symbol := Normalize(rows[i].symbol))
  {
    hide Normalize;
    if rows != [] {
      NormalizedRows(rows[..|rows| - 1]);
    }
  }

  lemma {:induction false} InsertIsAPermutation(sorted: seq<Row>, row: Row)
    ensures multiset(InsertRow(sorted, row)) == multiset(sorted) + multiset{row}
  {
    hide RowLess;
    if sorted != [] {
      var n := |sorted| - 1;
      InsertIsAPermutation(sorted[..n], row);
      assert sorted == sorted[..n] + [sorted[n]];
    }
  }

  lemma {:induction false} SortIsAPermutation(rows: seq<Row>)
    ensures multiset(SortRows(rows)) == multiset(rows)
  {
    hide InsertRow;
    if rows != [] {
      var n := |rows| - 1;
      SortIsAPermutation(rows[..n]);
      InsertIsAPermutation(SortRows(rows[..n]), rows[n]);
      assert rows == rows[..n] + [rows[n]];
    }
  }

  /** Preparation succeeds exactly when every row is acceptable and no two share
      their normalised symbol and time; it then loses and invents no row. */
  lemma PrepareSucceedsExactlyWhen(rows: seq<Row>)
    ensures Prepare(rows).Ok? <==>
            && (forall i :: 0 <= i < |rows| ==> AcceptableRow(rows[i]))
            && (forall i, j :: 0 <= i < j < |rows| ==> !SameSlot(rows[i], rows[j]))
    ensures Prepare(rows).Ok? ==> multiset(Prepare(rows).value) == multiset(NormalizeRows(rows))
  {
    NormalizedRows(rows);
    SortIsAPermutation(NormalizeRows(rows));
    var normal := NormalizeRows(rows);
    hide Normalize, SortRows, NormalizeRows;
    forall i | 0 <= i < |rows| ensures AcceptableRow(rows[i]) <==> RowOk(rows[i]) {
    }
    hide AcceptableRow, RowOk;
    forall i, j | 0 <= i < j < |rows| ensures SameKey(normal[i], normal[j]) <==> SameSlot(rows[i], rows[j]) {
    }
    hide SameKey, SameSlot;
  }

  /** The final timestamp is the largest one, and some row has it. */
  lemma {:induction false} LatestIsTheLargest(rows: seq<Row>) returns (i: nat)
    requires rows != []
    ensures i < |rows| && rows[i].timestamp == LatestTimestamp(rows)
    ensures forall j :: 0 <= j < |rows| ==> rows[j].timestamp <= LatestTimestamp(rows)
  {
    var n := |rows| - 1;
    i := n;
    if n > 0 {
      var before := LatestIsTheLargest(rows[..n]);
      if rows[before].timestamp > rows[n].timestamp {
        i := before;
      }
    }
  }
}
