/** The historical replay as an object: `run` loops over the prepared rows and
    updates the engine's dictionaries, its lifecycle and its broker journal in
    place. Each method is proved to do what the model function of the same
    stage says; after an exception nothing is promised about the fields. */
module ReplayEngine {
  import opened Common
  import opened Authority
  import M = ReplayModel
  import opened ReplayModel

  class HistoricalBacktestEngine {
    const config: Config
    const decide: Decide

    // PaperTradeLifecycle
    var open: map<string, OpenRecord>
    var openKeys: seq<string>
    var outcomes: seq<TradeOutcome>
    // the engine's own dictionaries
    var levels: map<string, Levels>
    var marks: map<string, real>
    var dayStartEquity: real
    var activeDay: Option<int>
    // the broker's order journal
    var journal: seq<PaperOrder>

    ghost function View(): State
      reads this
    {
      State(open, openKeys, outcomes, levels, marks, dayStartEquity, activeDay, journal)
    }

    constructor (config: Config, decide: Decide)
      requires ConfigOk(config)
      ensures this.config == config && this.decide == decide && View() == Fresh(config)
    {
      this.config, this.decide := config, decide;
      open, openKeys, outcomes, levels, marks := map[], [], [], map[], map[];
      dayStartEquity, activeDay, journal := config.startingEquity, None, [];
    }

    /** What a method left behind, in the form of the model's result. */
    ghost function Result(error: Option<ReplayError>): Outcome<State>
      reads this
    {
      if error.Some? then Err(error.value) else Ok(View())
    }

    method MarkTrade(symbol: string, timestamp: int, price: real) returns (error: Option<ReplayError>)
      modifies this
      ensures Result(error) == Mark(old(View()), symbol, timestamp, price)
    {
      if symbol !in open {
        return Some(NotOpen);
      }
      var r := open[symbol];
      if price <= 0.0 || timestamp < r.order.timestamp {
        return Some(BadMark);
      }
      var move := MoveValue(r.order.direction, r.order.fillPrice, price, r.quantity);
      if move < r.mae {
        r := r.(mae := move);
      }
      if move > r.mfe {
        r := r.(mfe := move);
      }
      open := open[symbol := r];
      return None;
    }

    method ClosePartialTrade(symbol: string, timestamp: int, price: real, quantity: real,
                             exitFees: real, exitSlippage: real, reference: real) returns (error: Option<ReplayError>)
      modifies this
      ensures Result(error) == ClosePartial(old(View()), symbol, timestamp, price, quantity, exitFees, exitSlippage,
              reference)
    {
      if symbol !in open {
        return Some(NotOpen);
      }
      var r := open[symbol];
      if price <= 0.0 || quantity <= 0.0 || exitFees < 0.0 || exitSlippage < 0.0 || reference <= 0.0 {
        return Some(BadExit);
      }
      if exitSlippage > 0.0 && reference == price {
        return Some(BadExit);
      }
      if quantity > r.quantity + TOLERANCE || timestamp < r.order.timestamp || r.quantity <= 0.0 {
        return Some(BadExit);
      }
      var outcome := MakeOutcome(r, symbol, timestamp, price, quantity, exitFees, exitSlippage, reference);
      if !OutcomeOk(outcome) {
        return Some(BadExit);
      }
      outcomes := outcomes + [outcome];
      var remaining := r.quantity - quantity;
      if remaining <= TOLERANCE {
        open := open - {symbol};
        openKeys := Without(openKeys, symbol);
      } else {
        var feeShare, slippageShare := Share(r.entryFees, quantity, r.quantity),
          Share(r.entrySlippage, quantity, r.quantity);
        open := open[symbol := r.(quantity := remaining, entryFees := r.entryFees - feeShare,
                                  entrySlippage := r.entrySlippage - slippageShare, mae := 0.0, mfe := 0.0)];
      }
      return None;
    }

    function Trade(symbol: string): (t: Option<PaperOrder>)
      reads this
      ensures t == OpenTrade(View(), symbol)
    {
      if symbol !in open then None
      else
        var r := open[symbol];
        Some(r.order.(quantity := r.quantity, fees := r.entryFees, slippageCost := r.entrySlippage))
    }

    method Exit(symbol: string, timestamp: int, price: Level,
        quantity: Option<real>) returns (error: Option<ReplayError>)
      modifies this
      ensures Result(error) == ExitTrade(config, old(View()), symbol, timestamp, price, quantity)
    {
      var trade := Trade(symbol);
      if trade.None? {
        return Some(NotOpen);
      }
      var order := trade.value;
      var units := if quantity.Some? then quantity.value else order.quantity;
      if !price.At? || price.price <= 0.0 || units <= 0.0 {
        return Some(BadFill);
      }
      var fill := FillPrice(config, Opposite(order.direction), price.price);
      if fill <= 0.0 {
        return Some(BadFill);
      }
      error := ClosePartialTrade(symbol, timestamp, fill, units, Fee(config, fill, units),
                                 SlippageCost(config, price.price, units), price.price);
    }

    method CloseAndDropLevels(symbol: string, timestamp: int, price: Level) returns (error: Option<ReplayError>)
      modifies this
      ensures Result(error) == CloseAndForget(config, old(View()), symbol, timestamp, price)
    {
      error := Exit(symbol, timestamp, price, None);
      if error.None? {
        levels := levels - {symbol};
      }
    }

    method ManageTrade(row: Row) returns (error: Option<ReplayError>)
      requires config.quantityStep > 0.0
      modifies this
      ensures Result(error) == ManageOpenTrade(config, old(View()), row)
    {
      var symbol := row.symbol;
      var trade := Trade(symbol);
      if trade.None? {
        return None;
      }
      var order := trade.value;
      error := MarkTrade(symbol, row.timestamp, row.close);
      if error.Some? || symbol !in levels {
        return;
      }
      var high, low := High(row), Low(row);
      if high <= 0.0 || low <= 0.0 || low > high {
        return Some(BadRange);
      }
      var current := levels[symbol];
      if StopHit(order.direction, row, current) {
        error := CloseAndDropLevels(symbol, row.timestamp, At(current.stop));
        return;
      }
      if TargetHit(order.direction, row, current) {
        error := TakeTargetExit(row, order, current);
      }
    }

    method TakeTargetExit(row: Row, order: PaperOrder, current: Levels) returns (error: Option<ReplayError>)
      requires config.quantityStep > 0.0
      modifies this
      ensures Result(error) == TakeTarget(config, old(View()), row, order, current)
    {
      var quantity := PartialSize(config, order.quantity);
      if quantity <= 0.0 || quantity >= order.quantity {
        error := CloseAndDropLevels(row.symbol, row.timestamp, current.target);
        return;
      }
      error := Exit(row.symbol, row.timestamp, current.target, Some(quantity));
      if error.None? {
        levels := levels[row.symbol := Levels(order.fillPrice, Unreachable(order.direction))];
      }
    }

    /** `_portfolio_state`: enters the day, then sums over the open trades. */
    method PortfolioState(timestamp: int, symbol: string) returns (portfolio: Portfolio)
      modifies this
      ensures View() == EnterDay(config, old(View()), timestamp)
      ensures portfolio == PortfolioOf(config, View(), timestamp, symbol)
    {
      var day := IstDay(timestamp);
      if activeDay != Some(day) {
        activeDay := Some(day);
        dayStartEquity := Max(EQUITY_FLOOR, config.startingEquity + NetPnl(outcomes));
      }
      var gross, unrealized := 0.0, 0.0;
      var i := 0;
      while i < |openKeys|
        invariant 0 <= i <= |openKeys|
        invariant gross == Gross(View(), openKeys[..i])
        invariant unrealized == Unrealized(View(), openKeys[..i])
      {
        assert openKeys[..i + 1][..i] == openKeys[..i];
        var key := openKeys[i];
        if key in open {
          var r := open[key];
          var mark := if key in marks then marks[key] else r.order.fillPrice;
          gross := gross + Times(r.quantity, mark);
          unrealized := unrealized + (MoveValue(r.order.direction, r.order.fillPrice, mark, r.quantity) - r.entryFees);
        }
        i := i + 1;
      }
      assert openKeys[..i] == openKeys;
      portfolio := Portfolio(Max(EQUITY_FLOOR, config.startingEquity + NetPnl(outcomes) + unrealized), dayStartEquity,
                             NetPnlOn(outcomes, day), unrealized, |openKeys|, OrdersOn(journal, day), gross,
                             symbol in openKeys);
    }

    method HandleDecision(a: ExecutionAuthorization, price: real, assessment: Assessment)
      returns (error: Option<ReplayError>, order: Option<PaperOrder>)
      modifies this
      ensures HandleAuthorised(config, old(View()), a, price, assessment)
              == (if error.Some? then Err(error.value) else Ok((View(), order)))
    {
      order := None;
      var existing := Trade(a.symbol);
      if existing.Some? {
        if existing.value.direction == a.direction {
          return None, None;
        }
        error := Exit(a.symbol, a.timestamp, At(price), None);
        if error.Some? {
          return;
        }
      }
      var submitted := SubmitPaper(config, a, price);
      if submitted.Err? {
        return Some(submitted.error), None;
      }
      var filled := submitted.value;
      journal := journal + [filled];
      if filled.symbol in open {
        return Some(AlreadyOpen), None;
      }
      open := open[filled.symbol := OpenRecord(filled, filled.quantity, filled.fees, filled.slippageCost, 0.0, 0.0)];
      openKeys := openKeys + [filled.symbol];
      if assessment.stopPrice.Some? && assessment.targetPrice.Some? {
        levels := levels[a.symbol := Levels(assessment.stopPrice.value, At(assessment.targetPrice.value))];
      }
      return None, Some(filled);
    }

    /** The exits of one row, in the order of the loop body of `run`. */
    method RunExits(x: Context, row: Row) returns (error: Option<ReplayError>)
      requires x.config == config && config.quantityStep > 0.0
      modifies this
      ensures Result(error) == ExitPhase(x, old(View()), row)
    {
      error := ManageTrade(row);
      if error.Some? {
        return;
      }
      marks := marks[row.symbol := row.price];
      if row.symbol in open && row.timestamp - open[row.symbol].order.timestamp >= config.maxHolding {
        error := CloseAndDropLevels(row.symbol, row.timestamp, At(row.price));
        if error.Some? {
          return;
        }
      }
      if (row.symbol, row.timestamp) in x.sessionEnds && row.symbol in open {
        error := CloseAndDropLevels(row.symbol, row.timestamp, At(row.price));
      }
    }

    method ProcessRow(x: Context, row: Row) returns (error: Option<ReplayError>, step: Option<Step>)
      requires x.config == config && x.decide == decide && config.quantityStep > 0.0
      modifies this
      ensures error.None? <==> step.Some?
      ensures RowStep(x, old(View()), row) == (if step.Some? then Ok((View(), step.value)) else Err(error.value))
    {
      step := None;
      error := RunExits(x, row);
      if error.Some? {
        return;
      }
      var portfolio := PortfolioState(row.timestamp, row.symbol);
      var assessed := decide(row, portfolio);
      if assessed.None? {
        return Some(DecisionRaised), None;
      }
      var assessment := assessed.value;
      var authorised := Authorise(row, assessment, row.symbol + ":" + assessment.riskVersion);
      if authorised.Err? {
        return Some(authorised.error), None;
      }
      var order: Option<PaperOrder> := None;
      if (row.symbol, row.timestamp) !in x.sessionEnds && row.timestamp < x.finalTimestamp
        && authorised.value.status.Authorized? {
        error, order := HandleDecision(authorised.value, row.price, assessment);
        if error.Some? {
          return;
        }
      }
      return None, Some(Step(row, assessment, authorised.value, order));
    }

    method CloseRemainingTrades(rows: seq<Row>) returns (error: Option<ReplayError>)
      modifies this
      ensures Result(error) == CloseRemaining(config, old(View()), rows, |rows|)
    {
      var k := 0;
      while k < |rows|
        invariant 0 <= k <= |rows|
        invariant Ok(View()) == CloseRemaining(config, old(View()), rows, k)
      {
        var symbol := rows[k].symbol;
        if symbol in open {
          var final := LastRowOf(rows, symbol, k);
          error := CloseAndDropLevels(symbol, final.timestamp, At(final.price));
          if error.Some? {
            CloseRemainingStops(config, old(View()), rows, k + 1);
            return;
          }
        }
        k := k + 1;
      }
      return None;
    }

    /** `run`. */
    method RunRows(raw: seq<Row>) returns (r: Outcome<BacktestResult>)
      requires ConfigOk(config)
      modifies this
      ensures M.Run(config, decide, old(View()), raw) == (if r.Ok? then Ok((View(), r.value)) else Err(r.error))
    {
      hide RowStep, CloseRemaining, SessionEnds, LatestTimestamp, SortRows, NormalizeRows, HasDuplicates;
      var prepared := Prepare(raw);
      if prepared.Err? {
        return Err(prepared.error);
      }
      var working := prepared.value;
      if working == [] {
        return Ok(BacktestResult([], []));
      }
      var x := ContextOf(config, decide, working);
      var steps: seq<Step> := [];
      var k := 0;
      while k < |working|
        invariant 0 <= k <= |working|
        invariant Replay(x, old(View()), working[..k]) == Ok((View(), steps))
      {
        assert working[..k + 1][..k] == working[..k];
        var error, step := ProcessRow(x, working[k]);
        if step.None? {
          ReplayStops(x, old(View()), working, k + 1);
          return Err(error.value);
        }
        steps := steps + [step.value];
        k := k + 1;
      }
      assert working[..k] == working;
      var error := CloseRemainingTrades(working);
      if error.Some? {
        return Err(error.value);
      }
      return Ok(BacktestResult(steps, outcomes));
    }
  }

  /** An exception ends the loop. */
  lemma {:induction false} ReplayStops(x: Context, s: State, rows: seq<Row>, k: nat)
    requires x.config.quantityStep > 0.0 && k <= |rows| && Replay(x, s, rows[..k]).Err?
    ensures Replay(x, s, rows) == Replay(x, s, rows[..k])
    decreases |rows| - k
  {
    if k == |rows| {
      assert rows[..k] == rows;
    } else {
      assert rows[..k + 1][..k] == rows[..k];
      assert Replay(x, s, rows[..k + 1]) == Replay(x, s, rows[..k]);
      ReplayStops(x, s, rows, k + 1);
    }
  }

  lemma {:induction false} CloseRemainingStops(c: Config, s: State, rows: seq<Row>, k: nat)
    requires k <= |rows| && CloseRemaining(c, s, rows, k).Err?
    ensures CloseRemaining(c, s, rows, |rows|) == CloseRemaining(c, s, rows, k)
    decreases |rows| - k
  {
    if k < |rows| {
      assert CloseRemaining(c, s, rows, k + 1) == CloseRemaining(c, s, rows, k);
      CloseRemainingStops(c, s, rows, k + 1);
    }
  }
}
