/** The money side of a replay. The lifecycle books gross P&L on reference
    prices and slippage as a separate cost; what a trade nets must still be the
    difference of its two fills less its fees, with no slippage counted twice. */
module ReplayCash {
  import opened Common
  import opened Authority
  import opened ReplayModel

  /** What an outcome is worth in cash: both fills and both fees. */
  function Cash(c: Config, o: TradeOutcome): real {
    MoveValue(o.direction, o.entryPrice, o.exitPrice, o.quantity)
    - Fee(c, o.entryPrice, o.quantity) - Fee(c, o.exitPrice, o.quantity)
  }

  predicate NetIsCash(c: Config, o: TradeOutcome) {
    o.netPnl == Cash(c, o) && o.netPnl == o.grossPnl - o.fees - o.slippageCost
  }

  /** Slippage per unit of an entry. */
  function Slip(o: PaperOrder): real {
    Abs(o.fillPrice - o.requestedPrice)
  }

  /** An open record still carries exactly its own units' share of the entry
      costs, whatever has been taken out of it. */
  predicate Priced(c: Config, r: OpenRecord) {
    && r.order.requestedPrice > 0.0 && !r.order.direction.NoTrade?
    && r.order.fillPrice == FillPrice(c, r.order.direction, r.order.requestedPrice)
    && r.entryFees == Fee(c, r.order.fillPrice, r.quantity)
    && r.entrySlippage == Times(Slip(r.order), r.quantity)
  }

  /** Every open record is priced, and every outcome from `base` on is cash. */
  ghost predicate Sound(c: Config, s: State, base: nat) {
    && (forall y :: y in s.open ==> Priced(c, s.open[y]))
    && base <= |s.outcomes|
    && forall i :: base <= i < |s.outcomes| ==> NetIsCash(c, s.outcomes[i])
  }

  // ------------------------------------------------------------ arithmetic

  lemma ShareOfProduct(rate: real, units: real, current: real)
    requires current != 0.0
    ensures Share(Times(rate, current), units, current) == Times(rate, units)
  {
    var cost := rate * current;
    assert cost * units == (rate * units) * current;
    assert ((rate * units) * current) / current == rate * units;
  }

  lemma FeeIsPerUnit(c: Config, fill: real, units: real)
    ensures Fee(c, fill, units) == Times(fill * c.feeBps / 10000.0, units)
  {
    assert fill * units * c.feeBps == (fill * c.feeBps) * units;
    var product := fill * c.feeBps;
    assert product * units / 10000.0 == (product / 10000.0) * units;
  }

  lemma FeeOfPart(c: Config, fill: real, units: real, current: real)
    requires current != 0.0
    ensures Share(Fee(c, fill, current), units, current) == Fee(c, fill, units)
    ensures Fee(c, fill, current) - Fee(c, fill, units) == Fee(c, fill, current - units)
  {
    var rate := fill * c.feeBps / 10000.0;
    FeeIsPerUnit(c, fill, current);
    FeeIsPerUnit(c, fill, units);
    FeeIsPerUnit(c, fill, current - units);
    ShareOfProduct(rate, units, current);
    TimesMinus(rate, current, units);
  }

  lemma TimesMinus(rate: real, a: real, b: real)
    ensures Times(rate, a) - Times(rate, b) == Times(rate, a - b)
  {
  }

  /** Slippage always works against the trader, and costs what it says. */
  lemma SlippageIsAgainstTheTrader(c: Config, direction: Direction, price: real, units: real)
    requires ConfigOk(c) && price > 0.0 && units >= 0.0
    ensures var fill := FillPrice(c, direction, price);
            && (if direction.Long? then fill >= price else fill <= price)
            && SlippageCost(c, price, units) == Times(Abs(fill - price), units)
  {
    var rate := SlippageRate(c);
    var fill := FillPrice(c, direction, price);
    assert price * rate >= 0.0;
    assert Abs(fill - price) == price * rate;
    assert (price * rate) * units == price * units * rate;
  }

  /** A reference move less both slippages is the move between the fills. */
  lemma MovesAddUp(direction: Direction, requested: real, entry: real, reference: real, exit: real, units: real)
    requires if direction.Long? then entry >= requested && exit <= reference
             else entry <= requested && exit >= reference
    ensures MoveValue(direction, requested, reference, units)
            - Times(Abs(entry - requested), units) - Times(Abs(exit - reference), units)
            == MoveValue(direction, entry, exit, units)
  {
    var a, b := Abs(entry - requested), Abs(exit - reference);
    assert (SignedMove(direction, requested, reference) - a - b) * units
           == SignedMove(direction, requested, reference) * units - a * units - b * units;
    assert SignedMove(direction, requested, reference) - a - b == SignedMove(direction, entry, exit);
  }

  // ------------------------------------------------------------ one exit

  /** The outcome of any exit of a priced trade is cash. */
  lemma ExitIsCash(c: Config, r: OpenRecord, symbol: string, timestamp: int, price: real, units: real)
    requires ConfigOk(c) && Priced(c, r) && r.quantity != 0.0 && price > 0.0 && units > 0.0
    ensures var fill := FillPrice(c, Opposite(r.order.direction), price);
            NetIsCash(c, MakeOutcome(r, symbol, timestamp, fill, units, Fee(c, fill, units),
              SlippageCost(c, price, units), price))
  {
    var d := r.order.direction;
    var fill := FillPrice(c, Opposite(d), price);
    SlippageIsAgainstTheTrader(c, d, r.order.requestedPrice, units);
    SlippageIsAgainstTheTrader(c, Opposite(d), price, units);
    FeeOfPart(c, r.order.fillPrice, units, r.quantity);
    ShareOfProduct(Slip(r.order), units, r.quantity);
    MovesAddUp(d, r.order.requestedPrice, r.order.fillPrice, price, fill, units);
    hide Times, Share, Fee, SlippageCost, FillPrice, MoveValue;
  }

  lemma PartStaysPriced(c: Config, r: OpenRecord, units: real)
    requires Priced(c, r) && r.quantity != 0.0
    ensures Priced(c, r.(quantity := r.quantity - units,
                         entryFees := r.entryFees - Share(r.entryFees, units, r.quantity),
                         entrySlippage := r.entrySlippage - Share(r.entrySlippage, units, r.quantity),
                         mae := 0.0, mfe := 0.0))
  {
    FeeOfPart(c, r.order.fillPrice, units, r.quantity);
    ShareOfProduct(Slip(r.order), units, r.quantity);
    TimesMinus(Slip(r.order), r.quantity, units);
    hide Times, Share, Fee, FillPrice;
  }

  lemma ExitTradeSound(c: Config, s: State, symbol: string, timestamp: int, price: Level, quantity: Option<real>,
      base: nat)
    requires ConfigOk(c) && Sound(c, s, base) && ExitTrade(c, s, symbol, timestamp, price, quantity).Ok?
    ensures Sound(c, ExitTrade(c, s, symbol, timestamp, price, quantity).value, base)
  {
    var r := s.open[symbol];
    var units := if quantity.Some? then quantity.value else r.quantity;
    ExitIsCash(c, r, symbol, timestamp, price.price, units);
    PartStaysPriced(c, r, units);
    hide NetIsCash, Priced, Share, Fee, SlippageCost, FillPrice, MoveValue, MakeOutcome;
  }

  // ------------------------------------------------------------ one row

  lemma CloseSound(c: Config, s: State, symbol: string, timestamp: int, price: Level, base: nat)
    requires ConfigOk(c) && Sound(c, s, base) && CloseAndForget(c, s, symbol, timestamp, price).Ok?
    ensures Sound(c, CloseAndForget(c, s, symbol, timestamp, price).value, base)
  {
    hide ExitTrade, NetIsCash, Priced;
    ExitTradeSound(c, s, symbol, timestamp, price, None, base);
  }

  lemma MarkSound(c: Config, s: State, symbol: string, timestamp: int, price: real, base: nat)
    requires Sound(c, s, base) && Mark(s, symbol, timestamp, price).Ok?
    ensures Sound(c, Mark(s, symbol, timestamp, price).value, base)
  {
    hide NetIsCash, MoveValue, Fee, FillPrice, Times;
    assert Priced(c, s.open[symbol]);
  }

  lemma ManageSound(c: Config, s: State, row: Row, base: nat)
    requires ConfigOk(c) && Sound(c, s, base) && ManageOpenTrade(c, s, row).Ok?
    ensures Sound(c, ManageOpenTrade(c, s, row).value, base)
  {
    hide Mark, CloseAndForget, TakeTarget, NetIsCash, Priced;
    var trade := OpenTrade(s, row.symbol);
    if trade.Some? {
      MarkSound(c, s, row.symbol, row.timestamp, row.close, base);
      var marked := Mark(s, row.symbol, row.timestamp, row.close).value;
      if row.symbol in s.levels {
        var levels := s.levels[row.symbol];
        if StopHit(trade.value.direction, row, levels) {
          CloseSound(c, marked, row.symbol, row.timestamp, At(levels.stop), base);
        } else if TargetHit(trade.value.direction, row, levels) {
          TargetSound(c, marked, row, trade.value, levels, base);
        }
      }
    }
  }

  lemma TargetSound(c: Config, s: State, row: Row, order: PaperOrder, levels: Levels, base: nat)
    requires ConfigOk(c) && Sound(c, s, base) && TakeTarget(c, s, row, order, levels).Ok?
    ensures Sound(c, TakeTarget(c, s, row, order, levels).value, base)
  {
    hide ExitTrade, CloseAndForget, PartialSize, NetIsCash, Priced;
    var quantity := PartialSize(c, order.quantity);
    if quantity <= 0.0 || quantity >= order.quantity {
      CloseSound(c, s, row.symbol, row.timestamp, levels.target, base);
    } else {
      ExitTradeSound(c, s, row.symbol, row.timestamp, levels.target, Some(quantity), base);
    }
  }

  lemma ExitPhaseSound(x: Context, s: State, row: Row, base: nat)
    requires ConfigOk(x.config) && Sound(x.config, s, base) && ExitPhase(x, s, row).Ok?
    ensures Sound(x.config, ExitPhase(x, s, row).value, base)
  {
    hide ManageOpenTrade, CloseAndForget, NetIsCash, Priced;
    var c := x.config;
    ManageSound(c, s, row, base);
    var managed := ManageOpenTrade(c, s, row).value;
    var marked := managed.(marks := managed.marks[row.symbol := row.price]);
    assert Sound(c, marked, base);
    var aged := CloseExpired(c, marked, row.symbol, row.timestamp, row.price).value;
    if aged != marked {
      CloseSound(c, marked, row.symbol, row.timestamp, At(row.price), base);
    }
    assert Sound(c, aged, base);
    if (row.symbol, row.timestamp) in x.sessionEnds && row.symbol in aged.open {
      CloseSound(c, aged, row.symbol, row.timestamp, At(row.price), base);
    }
  }

  /** A new trade is priced: its fill and both costs come from one model. */
  lemma SubmitIsPriced(c: Config, a: ExecutionAuthorization, price: real)
    requires SubmitPaper(c, a, price).Ok?
    ensures var o := SubmitPaper(c, a, price).value;
            Priced(c, OpenRecord(o, o.quantity, o.fees, o.slippageCost, 0.0, 0.0))
  {
  }

  lemma HandleSound(c: Config, s: State, a: ExecutionAuthorization, price: real, assessment: Assessment, base: nat)
    requires ConfigOk(c) && Sound(c, s, base) && HandleAuthorised(c, s, a, price, assessment).Ok?
    ensures Sound(c, HandleAuthorised(c, s, a, price, assessment).value.0, base)
  {
    var existing := OpenTrade(s, a.symbol);
    if existing.Some? && existing.value.direction != a.direction {
      ExitTradeSound(c, s, a.symbol, a.timestamp, At(price), None, base);
    }
    if SubmitPaper(c, a, price).Ok? {
      SubmitIsPriced(c, a, price);
    }
    hide ExitTrade, SubmitPaper, NetIsCash, Priced;
  }

  lemma RowStepSound(x: Context, s: State, row: Row, base: nat)
    requires ConfigOk(x.config) && Sound(x.config, s, base) && RowStep(x, s, row).Ok?
    ensures Sound(x.config, RowStep(x, s, row).value.0, base)
  {
    hide ExitPhase, HandleAuthorised, Authorise, PortfolioOf, NetIsCash, Priced;
    ExitPhaseSound(x, s, row, base);
    var flat := ExitPhase(x, s, row).value;
    var entered := EnterDay(x.config, flat, row.timestamp);
    assert Sound(x.config, entered, base);
    var assessment := x.decide(row, PortfolioOf(x.config, entered, row.timestamp, row.symbol)).value;
    var authorization := Authorise(row, assessment, row.symbol + ":" + assessment.riskVersion).value;
    if HandleAuthorised(x.config, entered, authorization, row.price, assessment).Ok? {
      HandleSound(x.config, entered, authorization, row.price, assessment, base);
    }
  }

  // ------------------------------------------------------------ whole runs

  lemma {:induction false} ReplaySound(x: Context, s: State, rows: seq<Row>, base: nat)
    requires ConfigOk(x.config) && Sound(x.config, s, base) && Replay(x, s, rows).Ok?
    ensures Sound(x.config, Replay(x, s, rows).value.0, base)
    decreases |rows|
  {
    hide RowStep, Sound;
    if rows != [] {
      var n := |rows| - 1;
      ReplaySound(x, s, rows[..n], base);
      RowStepSound(x, Replay(x, s, rows[..n]).value.0, rows[n], base);
    }
  }

  lemma {:induction false} CloseRemainingSound(c: Config, s: State, rows: seq<Row>, k: nat, base: nat)
    requires ConfigOk(c) && k <= |rows| && Sound(c, s, base) && CloseRemaining(c, s, rows, k).Ok?
    ensures Sound(c, CloseRemaining(c, s, rows, k).value, base)
  {
    hide CloseAndForget, Sound;
    if k > 0 {
      CloseRemainingSound(c, s, rows, k - 1, base);
      var before := CloseRemaining(c, s, rows, k - 1).value;
      if rows[k - 1].symbol in before.open {
        var final := LastRowOf(rows, rows[k - 1].symbol, k - 1);
        CloseSound(c, before, rows[k - 1].symbol, final.timestamp, At(final.price), base);
      }
    }
  }

  /** Over every run, the net P&L of every outcome is the cash between its two
      fills less the fees on both, and equals gross less fees less slippage. */
  lemma EveryOutcomeIsCash(c: Config, decide: Decide, s0: State, raw: seq<Row>, i: nat)
    requires ConfigOk(c) && s0.open == map[] && Run(c, decide, s0, raw).Ok?
    requires |s0.outcomes| <= i < |Run(c, decide, s0, raw).value.0.outcomes|
    ensures NetIsCash(c, Run(c, decide, s0, raw).value.0.outcomes[i])
  {
    hide Replay, CloseRemaining, SortRows, NormalizeRows, HasDuplicates, SessionEnds, LatestTimestamp, NetIsCash,
      Priced;
    var working := Prepare(raw).value;
    if working != [] {
      var x := ContextOf(c, decide, working);
      ReplaySound(x, s0, working, |s0.outcomes|);
      CloseRemainingSound(c, Replay(x, s0, working).value.0, working, |working|, |s0.outcomes|);
    }
  }

  function TotalCash(c: Config, outcomes: seq<TradeOutcome>): real {
    if outcomes == [] then 0.0 else TotalCash(c, outcomes[..|outcomes| - 1]) + Cash(c, outcomes[|outcomes| - 1])
  }

  lemma {:induction false} NetIsTotalCash(c: Config, outcomes: seq<TradeOutcome>)
    requires forall i :: 0 <= i < |outcomes| ==> NetIsCash(c, outcomes[i])
    ensures NetPnl(outcomes) == TotalCash(c, outcomes)
  {
    hide Cash;
    if outcomes != [] {
      NetIsTotalCash(c, outcomes[..|outcomes| - 1]);
    }
  }

  /** On a new engine the realised equity after a run is the opening equity plus
      the cash of every trade, never below the floor. */
  lemma RealisedEquityIsCash(c: Config, decide: Decide, raw: seq<Row>)
    requires ConfigOk(c) && Run(c, decide, Fresh(c), raw).Ok?
    ensures var after := Run(c, decide, Fresh(c), raw).value.0;
            CurrentEquity(c, after) == Max(EQUITY_FLOOR, c.startingEquity + TotalCash(c, after.outcomes))
  {
    var outcomes := Run(c, decide, Fresh(c), raw).value.0.outcomes;
    forall i | 0 <= i < |outcomes| ensures NetIsCash(c, outcomes[i]) {
      EveryOutcomeIsCash(c, decide, Fresh(c), raw, i);
    }
    hide Run, NetIsCash;
    NetIsTotalCash(c, outcomes);
  }
}
