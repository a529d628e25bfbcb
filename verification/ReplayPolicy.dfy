/** What the exit and entry policy of the replay does, in terms of the prices of
    a row and the levels of a trade: which trades leave, at what price, and what
    an authorised decision opens. */
module ReplayPolicy {
  import opened Common
  import opened Authority
  import opened ReplayModel
  import opened ReplayRows

  // ------------------------------------------------------------ prices

  /** Where a fill lands: `bps` ten-thousandths against whoever trades. Buying
      moves the price up, selling moves it down. */
  ghost function Slipped(c: Config, buys: bool, price: real): real {
    if buys then price * (1.0 + c.slippageBps / 10000.0) else price * (1.0 - c.slippageBps / 10000.0)
  }

  /** The price of getting out of a trade: a long one sells, a short one buys. */
  ghost function ExitPrice(c: Config, direction: Direction, reference: real): real {
    Slipped(c, direction != Long, reference)
  }

  /** The row's prices reach down, or up, to a level; without a range, its close
      has to. */
  ghost predicate ReachesDown(row: Row, level: real) {
    match row.low
    case Some(low) => low <= level
    case None => row.close <= level
  }

  ghost predicate ReachesUp(row: Row, level: real) {
    match row.high
    case Some(high) => high >= level
    case None => row.close >= level
  }

  ghost predicate StopTouched(direction: Direction, row: Row, stop: real) {
    (direction == Long && ReachesDown(row, stop)) || (direction != Long && ReachesUp(row, stop))
  }

  ghost predicate TargetTouched(direction: Direction, row: Row, target: Level) {
    target.At? && ((direction == Long && ReachesUp(row, target.price))
      || (direction != Long && ReachesDown(row, target.price)))
  }

  lemma FillIsSlipped(c: Config, direction: Direction, price: real)
    ensures FillPrice(c, direction, price) == Slipped(c, direction == Long, price)
  {
  }

  // ------------------------------------------------------------ one exit

  /** The outcome `o` is an exit of the trade `r` at this time, of this size,
      priced off this reference. */
  ghost predicate IsExit(c: Config, o: TradeOutcome, symbol: string, r: OpenRecord, timestamp: int, quantity: real,
      reference: real) {
    && o.symbol == symbol && o.direction == r.order.direction && o.quantity == quantity
    && o.entryTime == r.order.timestamp && o.exitTime == timestamp
    && o.entryPrice == r.order.fillPrice && o.exitPrice == ExitPrice(c, r.order.direction, reference)
  }

  lemma ExitSays(c: Config, s: State, symbol: string, timestamp: int, price: Level, quantity: Option<real>)
    requires ExitTrade(c, s, symbol, timestamp, price, quantity).Ok?
    ensures symbol in s.open && price.At?
    ensures var after := ExitTrade(c, s, symbol, timestamp, price, quantity).value;
            var units := if quantity.Some? then quantity.value else s.open[symbol].quantity;
            && |after.outcomes| == |s.outcomes| + 1 && after.outcomes[..|s.outcomes|] == s.outcomes
            && IsExit(c, after.outcomes[|s.outcomes|], symbol, s.open[symbol], timestamp, units, price.price)
            && after.journal == s.journal && after.levels == s.levels
            && (symbol in after.open <==> s.open[symbol].quantity - units > TOLERANCE)
            && (symbol in after.open ==> after.open[symbol].order == s.open[symbol].order)
  {
    hide FillPrice, Fee, SlippageCost, MoveValue, Share, Slipped;
    FillIsSlipped(c, Opposite(s.open[symbol].order.direction), price.price);
  }

  lemma CloseSays(c: Config, s: State, symbol: string, timestamp: int, price: Level)
    requires CloseAndForget(c, s, symbol, timestamp, price).Ok?
    ensures symbol in s.open && price.At?
    ensures var after := CloseAndForget(c, s, symbol, timestamp, price).value;
            && |after.outcomes| == |s.outcomes| + 1 && after.outcomes[..|s.outcomes|] == s.outcomes
            && IsExit(c, after.outcomes[|s.outcomes|], symbol, s.open[symbol], timestamp, s.open[symbol].quantity,
               price.price)
            && after.journal == s.journal && symbol !in after.open
  {
    hide ExitTrade, IsExit;
    ExitSays(c, s, symbol, timestamp, price, None);
  }

  // ------------------------------------------------------------ stop and target

  /** The size a target hit sells: as many whole steps as fit into the configured
      fraction, or everything when that is nothing or everything. */
  ghost predicate IsTargetSize(c: Config, held: real, size: real) {
    exists steps: int :: StepsFit(c, held, steps)
      && size == (if 0.0 < InSteps(c, steps) < held then InSteps(c, steps) else held)
  }

  ghost function InSteps(c: Config, steps: int): real {
    Times(steps as real, c.quantityStep)
  }

  /** `steps` is the largest whole number of steps in the fraction. */
  ghost predicate StepsFit(c: Config, held: real, steps: int) {
    InSteps(c, steps) <= Times(held, c.partialExitFraction) < InSteps(c, steps) + c.quantityStep
  }

  lemma PartialStepsFit(c: Config, held: real)
    requires c.quantityStep > 0.0
    ensures StepsFit(c, held, PartialSteps(c, held)) && PartialSize(c, held) == InSteps(c, PartialSteps(c, held))
  {
    WholeStepsFit(Times(held, c.partialExitFraction), c.quantityStep);
    hide StepsIn, Times;
  }

  lemma WholeStepsFit(part: real, step: real)
    requires step > 0.0
    ensures var n := StepsIn(part, step) as real; Times(n, step) <= part < Times(n, step) + step
  {
    var q, n := part / step, StepsIn(part, step) as real;
    QuotientTimes(part, step);
    NotLess(n, q, step);
    Less(q, n + 1.0, step);
    assert Times(n + 1.0, step) == Times(n, step) + step;
  }

  lemma QuotientTimes(part: real, step: real)
    requires step > 0.0
    ensures Times(part / step, step) == part
  {
  }

  lemma NotLess(a: real, b: real, step: real)
    requires a <= b && step > 0.0
    ensures Times(a, step) <= Times(b, step)
  {
    assert (b - a) * step >= 0.0;
  }

  lemma Less(a: real, b: real, step: real)
    requires a < b && step > 0.0
    ensures Times(a, step) < Times(b, step)
  {
    assert (b - a) * step > 0.0;
  }

  lemma TargetSizeIsIt(c: Config, held: real)
    requires c.quantityStep > 0.0
    ensures var q := PartialSize(c, held); IsTargetSize(c, held, if q <= 0.0 || q >= held then held else q)
  {
    PartialStepsFit(c, held);
    hide PartialSize, PartialSteps, InSteps, StepsFit;
    assert StepsFit(c, held, PartialSteps(c, held));
  }

  /** The row's range, with the close for what is missing, is one. */
  ghost predicate HasRange(row: Row) {
    match (row.low, row.high)
    case (Some(low), Some(high)) => 0.0 < low <= high
    case (Some(low), None) => 0.0 < low <= row.close
    case (None, Some(high)) => 0.0 < row.close <= high
    case (None, None) => row.close > 0.0
  }

  /** What the levels of a trade make it do on a row. */
  ghost predicate LevelsAreKept(c: Config, s: State, after: State, row: Row) {
    var symbol := row.symbol;
    symbol in s.open && symbol in s.levels &&
    var r, levels := s.open[symbol], s.levels[symbol];
    && HasRange(row)
    && after.journal == s.journal && s.outcomes <= after.outcomes
    && (StopTouched(r.order.direction, row, levels.stop) ==>
          && |after.outcomes| == |s.outcomes| + 1 && symbol !in after.open
          && IsExit(c, after.outcomes[|s.outcomes|], symbol, r, row.timestamp, r.quantity, levels.stop))
    && (!StopTouched(r.order.direction, row, levels.stop) && TargetTouched(r.order.direction, row, levels.target) ==>
          && |after.outcomes| == |s.outcomes| + 1
          && TargetExit(c, after.outcomes[|s.outcomes|], r, row, levels.target.price)
          && (symbol in after.open ==>
                && after.open[symbol].order == r.order && symbol in after.levels
                && after.levels[symbol]
                   == Levels(r.order.fillPrice, if r.order.direction == Long then PosInf else NegInf)))
    && (!StopTouched(r.order.direction, row, levels.stop) && !TargetTouched(r.order.direction, row, levels.target) ==>
          && after.outcomes == s.outcomes && symbol in after.open && after.open[symbol].order == r.order
          && after.open[symbol].quantity == r.quantity && after.levels == s.levels)
  }

  ghost predicate TargetExit(c: Config, o: TradeOutcome, r: OpenRecord, row: Row, target: real) {
    IsTargetSize(c, r.quantity, o.quantity) && IsExit(c, o, row.symbol, r, row.timestamp, o.quantity, target)
  }

  lemma MarkSays(s: State, symbol: string, timestamp: int, price: real)
    requires Mark(s, symbol, timestamp, price).Ok?
    ensures var after := Mark(s, symbol, timestamp, price).value;
            && symbol in s.open && symbol in after.open
            && after == s.(open := after.open) && after.open.Keys == s.open.Keys
            && after.open[symbol] == s.open[symbol].(mae := after.open[symbol].mae, mfe := after.open[symbol].mfe)
  {
    hide MoveValue;
  }

  lemma RangeIsChecked(row: Row)
    ensures HasRange(row) <==> High(row) > 0.0 && Low(row) > 0.0 && Low(row) <= High(row)
  {
  }

  lemma ManageSays(c: Config, s: State, row: Row)
    requires c.quantityStep > 0.0 && row.symbol in s.open && row.symbol in s.levels
    requires ManageOpenTrade(c, s, row).Ok?
    ensures LevelsAreKept(c, s, ManageOpenTrade(c, s, row).value, row)
  {
    var symbol, t := row.symbol, row.timestamp;
    var r, levels := s.open[symbol], s.levels[symbol];
    hide Mark, CloseAndForget, TakeTarget, IsExit, ExitPrice, PartialSize;
    MarkSays(s, symbol, t, row.close);
    RangeIsChecked(row);
    var marked := Mark(s, symbol, t, row.close).value;
    if StopTouched(r.order.direction, row, levels.stop) {
      CloseSays(c, marked, symbol, t, At(levels.stop));
      SameTradeSameExit(c, r, marked.open[symbol]);
    } else if TakeTarget(c, marked, row, OpenTrade(s, symbol).value, levels).Ok? {
      TargetSays(c, marked, row, OpenTrade(s, symbol).value, levels);
      SameTradeSameExit(c, r, marked.open[symbol]);
    }
  }

  lemma SameTradeSameExit(c: Config, a: OpenRecord, b: OpenRecord)
    requires a.order == b.order
    ensures forall o, symbol, t, q, p :: IsExit(c, o, symbol, a, t, q, p) <==> IsExit(c, o, symbol, b, t, q, p)
  {
    hide ExitPrice;
  }

  lemma TargetSays(c: Config, s: State, row: Row, order: PaperOrder, levels: Levels)
    requires c.quantityStep > 0.0 && OpenTrade(s, row.symbol) == Some(order)
    requires TakeTarget(c, s, row, order, levels).Ok?
    ensures levels.target.At?
    ensures var after := TakeTarget(c, s, row, order, levels).value;
            var symbol := row.symbol;
            && |after.outcomes| == |s.outcomes| + 1 && after.outcomes[..|s.outcomes|] == s.outcomes
            && TargetExit(c, after.outcomes[|s.outcomes|], s.open[symbol], row, levels.target.price)
            && after.journal == s.journal
            && (symbol in after.open ==>
                  && after.open[symbol].order == s.open[symbol].order && symbol in after.levels
                  && after.levels[symbol]
                     == Levels(s.open[symbol].order.fillPrice, if order.direction == Long then PosInf else NegInf))
  {
    var q := PartialSize(c, order.quantity);
    TargetSizeIsIt(c, order.quantity);
    hide CloseAndForget, ExitTrade, PartialSize, IsTargetSize, ExitPrice;
    if q <= 0.0 || q >= order.quantity {
      CloseSays(c, s, row.symbol, row.timestamp, levels.target);
    } else {
      ExitSays(c, s, row.symbol, row.timestamp, levels.target, Some(q));
    }
  }

  // ------------------------------------------------------------ the exits of a row

  /** A trade that its levels leave open is closed whole, at the row's price,
      when it has reached the holding limit or the row ends the session. */
  ghost predicate ClosedByTime(x: Context, m: State, e: State, row: Row) {
    var symbol := row.symbol;
    && e.journal == m.journal
    && (symbol !in m.open ==> e.outcomes == m.outcomes && symbol !in e.open && e.levels == m.levels)
    && (symbol in m.open ==>
          var r := m.open[symbol];
          if row.timestamp - r.order.timestamp >= x.config.maxHolding || (symbol, row.timestamp) in x.sessionEnds then
            && |e.outcomes| == |m.outcomes| + 1 && e.outcomes[..|m.outcomes|] == m.outcomes && symbol !in e.open
            && IsExit(x.config, e.outcomes[|m.outcomes|], symbol, r, row.timestamp, r.quantity, row.price)
          else e.outcomes == m.outcomes && e.open == m.open && e.levels == m.levels)
  }

  lemma ExitPhaseSays(x: Context, s: State, row: Row)
    requires x.config.quantityStep > 0.0 && ExitPhase(x, s, row).Ok?
    ensures ManageOpenTrade(x.config, s, row).Ok?
    ensures ClosedByTime(x, ManageOpenTrade(x.config, s, row).value, ExitPhase(x, s, row).value, row)
  {
    hide ManageOpenTrade, CloseAndForget, IsExit;
    var c := x.config;
    var managed := ManageOpenTrade(c, s, row).value;
    var marked := managed.(marks := managed.marks[row.symbol := row.price]);
    if row.symbol in marked.open {
      var aged := CloseExpired(c, marked, row.symbol, row.timestamp, row.price).value;
      if row.timestamp - marked.open[row.symbol].order.timestamp >= c.maxHolding {
        CloseSays(c, marked, row.symbol, row.timestamp, At(row.price));
      } else if (row.symbol, row.timestamp) in x.sessionEnds {
        CloseSays(c, aged, row.symbol, row.timestamp, At(row.price));
      }
    }
  }

  // ------------------------------------------------------------ the decision of a row

  /** The order that an authorisation of this size fills at this price. */
  ghost predicate IsEntry(c: Config, o: PaperOrder, a: ExecutionAuthorization, price: real) {
    && o.timestamp == a.timestamp && o.symbol == a.symbol && o.direction == a.direction
    && o.requestedPrice == price && o.fillPrice == Slipped(c, a.direction == Long, price)
       && o.quantity == a.approvedQuantity
  }

  /** The new trade and the levels it is watched with. */
  ghost predicate Opens(c: Config, before: State, after: State, a: ExecutionAuthorization, price: real,
      assessment: Assessment) {
    && |after.journal| == |before.journal| + 1 && after.journal[..|before.journal|] == before.journal
    && var o := after.journal[|before.journal|];
       && IsEntry(c, o, a, price)
       && a.symbol in after.open && after.open[a.symbol] == OpenRecord(o, o.quantity, o.fees, o.slippageCost, 0.0, 0.0)
       && (match (assessment.stopPrice, assessment.targetPrice)
           case (Some(stop), Some(target)) => a.symbol in after.levels
             && after.levels[a.symbol] == Levels(stop, At(target))
           case _ => after.levels == before.levels)
  }

  /** An authorised decision: nothing when the trade already goes that way; a
      trade that goes the other way is closed whole at the market first. */
  ghost predicate Follows(c: Config, s: State, after: State, order: Option<PaperOrder>, a: ExecutionAuthorization,
      price: real,
      assessment: Assessment) {
    if a.symbol in s.open && s.open[a.symbol].order.direction == a.direction then after == s && order.None?
    else
      && Opens(c, s, after, a, price, assessment) && order == Some(after.journal[|s.journal|])
      && if a.symbol !in s.open then after.outcomes == s.outcomes
         else
           && |after.outcomes| == |s.outcomes| + 1 && after.outcomes[..|s.outcomes|] == s.outcomes
           && IsExit(c, after.outcomes[|s.outcomes|], a.symbol, s.open[a.symbol], a.timestamp,
              s.open[a.symbol].quantity, price)
  }

  lemma SubmitSays(c: Config, a: ExecutionAuthorization, price: real)
    requires SubmitPaper(c, a, price).Ok?
    ensures IsEntry(c, SubmitPaper(c, a, price).value, a, price)
  {
    hide Fee, FillPrice, Slipped;
    FillIsSlipped(c, a.direction, price);
  }

  lemma AuthorisedDecisionsAreFollowed(c: Config, s: State, a: ExecutionAuthorization, price: real,
      assessment: Assessment)
    requires HandleAuthorised(c, s, a, price, assessment).Ok?
    ensures var (after, order) := HandleAuthorised(c, s, a, price, assessment).value;
            Follows(c, s, after, order, a, price, assessment)
  {
    hide ExitTrade, SubmitPaper, IsExit, Slipped;
    if a.symbol in s.open && s.open[a.symbol].order.direction != a.direction {
      ExitSays(c, s, a.symbol, a.timestamp, At(price), None);
    }
    if SubmitPaper(c, a, price).Ok? {
      SubmitSays(c, a, price);
    }
  }

  /** What is authorised is what the assessment approved, for the row's symbol
      and time. */
  ghost predicate AuthorisesAssessment(a: ExecutionAuthorization, assessment: Assessment, row: Row) {
    && a.timestamp == row.timestamp && a.symbol == row.symbol && a.direction == assessment.direction
    && (a.status == Authorized <==> assessment.status == Approved)
    && (a.status == Authorized ==> a.approvedQuantity == assessment.approvedQuantity > 0.0)
  }

  lemma AuthoriseSays(row: Row, assessment: Assessment, id: string)
    requires Authorise(row, assessment, id).Ok?
    ensures AuthorisesAssessment(Authorise(row, assessment, id).value, assessment, row)
  {
    hide Normalize;
  }

  /** An assessment is authorised or blocked exactly when it is well formed: for
      an approval, its size and the value of that size at the entry price are
      those that risk approved; a rejection carries nothing. */
  lemma AssessmentsAreAuthorisedExactlyWhen(row: Row, assessment: Assessment, id: string)
    ensures Authorise(row, assessment, id).Ok? <==>
            && row.symbol != "" && Normalize(row.symbol) == row.symbol
            && (assessment.status == Rejected ==>
                  assessment.approvedQuantity == 0.0 && assessment.approvedNotional == 0.0)
            && (assessment.status == Approved ==>
                  && assessment.approvedQuantity > 0.0 && assessment.approvedNotional >= 0.0
                  && assessment.positionSize == Some(assessment.approvedQuantity)
                  && (match assessment.entryPrice
                      case Some(entry) => Times(entry, assessment.approvedQuantity) == assessment.approvedNotional
                      case None => assessment.approvedNotional == 0.0))
  {
    hide Normalize, Times;
  }

  /** The decision of a row, from the state its exits left: it acts on an
      authorised assessment unless the row ends the session or is the last. */
  ghost predicate Decides(x: Context, e: State, after: State, step: Step, row: Row) {
    var a := step.authorization;
    && step.row == row && AuthorisesAssessment(a, step.assessment, row)
    && if a.status == Authorized && (row.symbol, row.timestamp) !in x.sessionEnds
       && row.timestamp < x.finalTimestamp then
         exists m: State :: SameTrades(e, m) && Follows(x.config, m, after, step.order, a, row.price, step.assessment)
       else SameTrades(e, after) && step.order.None?
  }

  ghost predicate SameTrades(a: State, b: State) {
    a.open == b.open && a.levels == b.levels && a.outcomes == b.outcomes && a.journal == b.journal
  }

  lemma DecisionSays(x: Context, e: State, row: Row)
    requires DecisionPhase(x, e, row).Ok?
    ensures var (after, step) := DecisionPhase(x, e, row).value; Decides(x, e, after, step, row)
  {
    hide HandleAuthorised, Authorise, PortfolioOf, Follows, AuthorisesAssessment, CurrentEquity;
    var entered := EnterDay(x.config, e, row.timestamp);
    assert SameTrades(e, entered);
    var (after, step) := DecisionPhase(x, e, row).value;
    AuthoriseSays(row, step.assessment, row.symbol + ":" + step.assessment.riskVersion);
    var a := step.authorization;
    assert Authorise(row, step.assessment, row.symbol + ":" + step.assessment.riskVersion) == Ok(a);
    if a.status == Authorized && (row.symbol, row.timestamp) !in x.sessionEnds && row.timestamp < x.finalTimestamp {
      assert HandleAuthorised(x.config, entered, a, row.price, step.assessment) == Ok((after, step.order));
      AuthorisedDecisionsAreFollowed(x.config, entered, a, row.price, step.assessment);
      assert SameTrades(e, entered) && Follows(x.config, entered, after, step.order, a, row.price, step.assessment);
    } else {
      assert after == entered && step.order.None?;
    }
  }

  // ------------------------------------------------------------ one row

  /** The trade of the row's symbol is over: what is open there now was entered
      on this row. */
  ghost predicate LeftTheTrade(s: State, after: State, row: Row) {
    row.symbol in after.open ==>
      |after.journal| == |s.journal| + 1 && after.open[row.symbol].order == after.journal[|s.journal|]
  }

  /** The levels say nothing on this row, or there are none. */
  ghost predicate Quiet(s: State, row: Row) {
    row.symbol in s.open && (row.symbol in s.levels ==>
      && !StopTouched(s.open[row.symbol].order.direction, row, s.levels[row.symbol].stop)
      && !TargetTouched(s.open[row.symbol].order.direction, row, s.levels[row.symbol].target))
  }

  ghost predicate TimeIsUp(x: Context, s: State, row: Row) {
    row.symbol in s.open &&
    (row.timestamp - s.open[row.symbol].order.timestamp >= x.config.maxHolding
      || (row.symbol, row.timestamp) in x.sessionEnds)
  }

  lemma RowPhases(x: Context, s: State, row: Row) returns (m: State, e: State)
    requires x.config.quantityStep > 0.0 && RowStep(x, s, row).Ok?
    ensures ManageOpenTrade(x.config, s, row) == Ok(m) && ClosedByTime(x, m, e, row)
    ensures Decides(x, e, RowStep(x, s, row).value.0, RowStep(x, s, row).value.1, row)
  {
    hide ExitPhase, DecisionPhase, ManageOpenTrade, Decides, ClosedByTime;
    ExitPhaseSays(x, s, row);
    m, e := ManageOpenTrade(x.config, s, row).value, ExitPhase(x, s, row).value;
    DecisionSays(x, e, row);
  }

  lemma FlatSymbolsOnlyEnter(x: Context, e: State, after: State, step: Step, row: Row)
    requires Decides(x, e, after, step, row) && row.symbol !in e.open
    ensures after.outcomes == e.outcomes
    ensures row.symbol in after.open ==>
              |after.journal| == |e.journal| + 1 && after.open[row.symbol].order == after.journal[|e.journal|]
  {
    hide IsEntry, IsExit;
  }

  /** The protective stop: a long trade whose low, or close without a range, is
      at or below its stop, and a short one whose high is at or above it, is
      over after the row. Its one exit takes everything, at the stop less the
      configured slippage. */
  lemma StopsAreTaken(x: Context, s: State, row: Row)
    requires x.config.quantityStep > 0.0 && RowStep(x, s, row).Ok?
    requires row.symbol in s.open && row.symbol in s.levels
    requires StopTouched(s.open[row.symbol].order.direction, row, s.levels[row.symbol].stop)
    ensures var after, r := RowStep(x, s, row).value.0, s.open[row.symbol];
            && |after.outcomes| == |s.outcomes| + 1 && after.outcomes[..|s.outcomes|] == s.outcomes
            && IsExit(x.config, after.outcomes[|s.outcomes|], row.symbol, r, row.timestamp, r.quantity,
               s.levels[row.symbol].stop)
            && LeftTheTrade(s, after, row)
  {
    var m, e := RowPhases(x, s, row);
    ManageSays(x.config, s, row);
    var (after, step) := RowStep(x, s, row).value;
    FlatSymbolsOnlyEnter(x, e, after, step, row);
    hide Decides, IsExit, RowStep, ManageOpenTrade;
  }

  /** The target: when the stop is not touched and the target is, the first exit
      of the row is priced off the target and has the target size. What is left
      is watched with its stop at the entry fill and no target. */
  lemma TargetsAreTaken(x: Context, s: State, row: Row)
    requires x.config.quantityStep > 0.0 && RowStep(x, s, row).Ok?
    requires row.symbol in s.open && row.symbol in s.levels
    requires !StopTouched(s.open[row.symbol].order.direction, row, s.levels[row.symbol].stop)
    requires TargetTouched(s.open[row.symbol].order.direction, row, s.levels[row.symbol].target)
    ensures var after, r := RowStep(x, s, row).value.0, s.open[row.symbol];
            && |after.outcomes| > |s.outcomes| && after.outcomes[..|s.outcomes|] == s.outcomes
            && TargetExit(x.config, after.outcomes[|s.outcomes|], r, row, s.levels[row.symbol].target.price)
            && (LeftTheTrade(s, after, row)
                || (&& after.open[row.symbol].order == r.order && row.symbol in after.levels
                    && after.levels[row.symbol]
                       == Levels(r.order.fillPrice, if r.order.direction == Long then PosInf else NegInf)))
  {
    var m, e := RowPhases(x, s, row);
    ManageSays(x.config, s, row);
    var (after, step) := RowStep(x, s, row).value;
    KeepsOrLeaves(x, s, m, e, after, step, row);
    hide Decides, IsExit, RowStep, ManageOpenTrade, ClosedByTime, IsTargetSize;
  }

  /** After the levels have spoken, time and the decision only add exits, and
      what is then open is the same trade with the same levels or a new one. */
  lemma KeepsOrLeaves(x: Context, s: State, m: State, e: State, after: State, step: Step, row: Row)
    requires ClosedByTime(x, m, e, row) && Decides(x, e, after, step, row) && m.journal == s.journal
    ensures m.outcomes <= e.outcomes <= after.outcomes
    ensures LeftTheTrade(s, after, row)
            || (&& row.symbol in m.open && after.open[row.symbol].order == m.open[row.symbol].order
                && (row.symbol in m.levels ==>
                      row.symbol in after.levels && after.levels[row.symbol] == m.levels[row.symbol]))
  {
    hide IsExit, IsEntry;
  }

  lemma QuietManage(c: Config, s: State, row: Row)
    requires c.quantityStep > 0.0 && Quiet(s, row) && ManageOpenTrade(c, s, row).Ok?
    ensures var m := ManageOpenTrade(c, s, row).value;
            && m.outcomes == s.outcomes && m.journal == s.journal && m.levels == s.levels
            && row.symbol in m.open && m.open[row.symbol].order == s.open[row.symbol].order
            && m.open[row.symbol].quantity == s.open[row.symbol].quantity
  {
    hide Mark, CloseAndForget, TakeTarget, IsExit;
    if row.symbol in s.levels {
      ManageSays(c, s, row);
    } else {
      MarkSays(s, row.symbol, row.timestamp, row.close);
    }
  }

  /** When the levels say nothing, a trade at its holding limit or in its
      session's last row is closed whole at the row's price, and that is the
      row's only exit. */
  lemma TimeClosesTrades(x: Context, s: State, row: Row)
    requires x.config.quantityStep > 0.0 && RowStep(x, s, row).Ok? && Quiet(s, row) && TimeIsUp(x, s, row)
    ensures var after, r := RowStep(x, s, row).value.0, s.open[row.symbol];
            && |after.outcomes| == |s.outcomes| + 1 && after.outcomes[..|s.outcomes|] == s.outcomes
            && IsExit(x.config, after.outcomes[|s.outcomes|], row.symbol, r, row.timestamp, r.quantity, row.price)
            && LeftTheTrade(s, after, row)
  {
    var m, e := RowPhases(x, s, row);
    QuietManage(x.config, s, row);
    SameTradeSameExit(x.config, s.open[row.symbol], m.open[row.symbol]);
    var (after, step) := RowStep(x, s, row).value;
    FlatSymbolsOnlyEnter(x, e, after, step, row);
    hide Decides, IsExit, RowStep, ManageOpenTrade, Quiet;
  }

  /** When neither the levels nor time say anything, the trade stays as it is,
      and the row has no exit, unless an authorised decision goes the other way:
      then it is closed whole at the row's price and the new trade is open. */
  lemma OtherwiseOnlyReversalsExit(x: Context, s: State, row: Row)
    requires x.config.quantityStep > 0.0 && RowStep(x, s, row).Ok? && Quiet(s, row) && !TimeIsUp(x, s, row)
    ensures var (after, step) := RowStep(x, s, row).value;
            var r := s.open[row.symbol];
            if step.order.None? then
              && after.outcomes == s.outcomes && after.journal == s.journal
              && row.symbol in after.open && after.open[row.symbol].order == r.order
                 && after.open[row.symbol].quantity == r.quantity
            else
              && step.authorization.status == Authorized && step.authorization.direction != r.order.direction
              && |after.outcomes| == |s.outcomes| + 1 && after.outcomes[..|s.outcomes|] == s.outcomes
              && IsExit(x.config, after.outcomes[|s.outcomes|], row.symbol, r, row.timestamp, r.quantity, row.price)
              && row.symbol in after.open && Some(after.open[row.symbol].order) == step.order
              && IsEntry(x.config, step.order.value, step.authorization, row.price)
  {
    var m, e := RowPhases(x, s, row);
    QuietManage(x.config, s, row);
    SameTradeSameExit(x.config, s.open[row.symbol], m.open[row.symbol]);
    hide IsExit, IsEntry, RowStep, ManageOpenTrade, Quiet;
  }

  /** A symbol without a trade has no exit, and gets one exactly when an
      authorised decision may act on the row. */
  lemma FlatRowsEnterExactlyWhenAuthorised(x: Context, s: State, row: Row)
    requires x.config.quantityStep > 0.0 && RowStep(x, s, row).Ok? && row.symbol !in s.open
    ensures var (after, step) := RowStep(x, s, row).value;
            && after.outcomes == s.outcomes
            && (step.order.Some? <==>
                  && step.assessment.status == Approved && (row.symbol, row.timestamp) !in x.sessionEnds
                  && row.timestamp < x.finalTimestamp)
            && (row.symbol in after.open <==> step.order.Some?)
            && (step.order.Some? ==> Opens(x.config, s, after, step.authorization, row.price, step.assessment))
  {
    var m, e := RowPhases(x, s, row);
    assert m == s;
    hide IsExit, IsEntry, RowStep, ManageOpenTrade;
  }

  // ------------------------------------------------------------ whole runs

  /** Over runs: no trade survives a row that touches its stop. */
  lemma NoTradeSurvivesItsStop(x: Context, s0: State, rows: seq<Row>, k: nat)
    requires x.config.quantityStep > 0.0 && k < |rows| && Replay(x, s0, rows[..k + 1]).Ok?
    ensures Replay(x, s0, rows[..k]).Ok?
    ensures var s, after, row := Replay(x, s0, rows[..k]).value.0, Replay(x, s0, rows[..k + 1]).value.0, rows[k];
            row.symbol in s.open && row.symbol in s.levels
            && StopTouched(s.open[row.symbol].order.direction, row, s.levels[row.symbol].stop) ==>
              && LeftTheTrade(s, after, row) && |after.outcomes| == |s.outcomes| + 1
              && IsExit(x.config, after.outcomes[|s.outcomes|], row.symbol, s.open[row.symbol], row.timestamp,
                        s.open[row.symbol].quantity, s.levels[row.symbol].stop)
  {
    hide RowStep, StopTouched, IsExit, LeftTheTrade;
    assert rows[..k + 1][..k] == rows[..k];
    var s, row := Replay(x, s0, rows[..k]).value.0, rows[k];
    if row.symbol in s.open && row.symbol in s.levels
       && StopTouched(s.open[row.symbol].order.direction, row, s.levels[row.symbol].stop)
    {
      StopsAreTaken(x, s, row);
    }
  }
}
