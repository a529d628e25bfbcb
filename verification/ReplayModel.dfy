/** The historical replay as a function of its rows: the paper trade lifecycle,
    the paper fill, the exit policy and one decision per row. Prices and
    quantities are exact reals; timestamps are whole UTC nanoseconds. */
module ReplayModel {
  import opened Common
  import opened Authority

  const NANOS_PER_DAY: int := 86_400_000_000_000
  const IST_OFFSET: int := 19_800_000_000_000
  const EQUITY_FLOOR: real := 0.000000001

  /** The Asia/Kolkata calendar day of a UTC timestamp (fixed +05:30). */
  function IstDay(timestamp: int): int {
    (timestamp + IST_OFFSET) / NANOS_PER_DAY
  }

  /** `price` is the configured price column; the high and low columns are optional. */
  datatype Row = Row(timestamp: int, symbol: string, price: real, close: real, high: Option<real>, low: Option<real>,
    features: seq<real>)

  function High(row: Row): real {
    if row.high.Some? then row.high.value else row.close
  }

  function Low(row: Row): real {
    if row.low.Some? then row.low.value else row.close
  }

  /** `maxHolding` is the timedelta of `max_holding_minutes`. */
  datatype Config = Config(
    maxHolding: int, startingEquity: real, partialExitFraction: real, quantityStep: real,
    slippageBps: real, feeBps: real)

  predicate ConfigOk(c: Config) {
    && c.maxHolding > 0 && c.startingEquity > 0.0
    && 0.0 < c.partialExitFraction <= 1.0 && c.quantityStep > 0.0
    && c.slippageBps >= 0.0 && c.feeBps >= 0.0
  }

  datatype PaperOrder = PaperOrder(
    timestamp: int, symbol: string, direction: Direction, requestedPrice: real, fillPrice: real,
    quantity: real, fees: real, slippageCost: real)

  /** A price, or the infinity a target is moved to after a partial exit. */
  datatype Level = At(price: real) | PosInf | NegInf

  datatype Levels = Levels(stop: real, target: Level)

  datatype OpenRecord = OpenRecord(
    order: PaperOrder, quantity: real, entryFees: real, entrySlippage: real, mae: real, mfe: real)

  datatype TradeOutcome = TradeOutcome(
    symbol: string, direction: Direction, entryTime: int, exitTime: int, entryPrice: real, exitPrice: real,
    quantity: real, grossPnl: real, fees: real, slippageCost: real, netPnl: real, mae: real, mfe: real)

  /** Constructor checks of TradeOutcome. */
  predicate OutcomeOk(o: TradeOutcome) {
    && o.entryTime <= o.exitTime && o.entryPrice > 0.0 && o.exitPrice > 0.0 && o.quantity > 0.0
    && o.fees >= 0.0 && o.slippageCost >= 0.0 && o.mae <= 0.0 <= o.mfe
  }

  /** The engine's fields together with those of its lifecycle and broker. The
      insertion order of the open-trade dictionary is kept in `openKeys`. */
  datatype State = State(
    open: map<string, OpenRecord>,
    openKeys: seq<string>,
    outcomes: seq<TradeOutcome>,
    levels: map<string, Levels>,
    marks: map<string, real>,
    dayStartEquity: real,
    activeDay: Option<int>,
    journal: seq<PaperOrder>)

  function Fresh(c: Config): State {
    State(map[], [], [], map[], map[], c.startingEquity, None, [])
  }

  datatype ReplayError =
    | BadRow | DuplicateRow | BadRange | BadFill | BadMark | NotOpen | AlreadyOpen | BadExit | BadDecision
    | DecisionRaised | NotAuthorised(cause: AuthorityError)

  type Outcome<+T> = Result<T, ReplayError>

  // ------------------------------------------------------------ the lifecycle

  /** `_open_trade`: the entry order with what is left of its quantity and costs. */
  function OpenTrade(s: State, symbol: string): Option<PaperOrder> {
    if symbol !in s.open then None
    else
      var r := s.open[symbol];
      Some(r.order.(quantity := r.quantity, fees := r.entryFees, slippageCost := r.entrySlippage))
  }

  function SignedMove(direction: Direction, a: real, b: real): real {
    if direction.Long? then b - a else a - b
  }

  /** What `quantity` units gain when the price moves from `a` to `b`. */
  function MoveValue(direction: Direction, a: real, b: real, quantity: real): real {
    SignedMove(direction, a, b) * quantity
  }

  /** `PaperTradeLifecycle.mark`. */
  function Mark(s: State, symbol: string, timestamp: int, price: real): Outcome<State> {
    if symbol !in s.open then Err(NotOpen)
    else
      var r := s.open[symbol];
      if price <= 0.0 || timestamp < r.order.timestamp then Err(BadMark)
      else
        var move := MoveValue(r.order.direction, r.order.fillPrice, price, r.quantity);
        Ok(s.(open := s.open[symbol := r.(mae := if move < r.mae then move else r.mae,
                                          mfe := if move > r.mfe then move else r.mfe)]))
  }

  /** The share of an entry cost that leaves with `quantity` of `current` units. */
  function Share(cost: real, quantity: real, current: real): real
    requires current != 0.0
  {
    cost * quantity / current
  }

  function MakeOutcome(r: OpenRecord, symbol: string, timestamp: int, price: real, quantity: real,
                       exitFees: real, exitSlippage: real, reference: real): TradeOutcome
    requires r.quantity != 0.0
  {
    var gross := MoveValue(r.order.direction, r.order.requestedPrice, reference, quantity);
    var fees, slippage := Share(r.entryFees, quantity, r.quantity), Share(r.entrySlippage, quantity, r.quantity);
    TradeOutcome(symbol, r.order.direction, r.order.timestamp, timestamp, r.order.fillPrice, price, quantity, gross,
                 fees + exitFees, slippage + exitSlippage, gross - fees - exitFees - slippage - exitSlippage, r.mae,
                   r.mfe)
  }

  function Without(keys: seq<string>, symbol: string): seq<string> {
    if keys == [] then []
    else if keys[0] == symbol then Without(keys[1..], symbol)
    else [keys[0]] + Without(keys[1..], symbol)
  }

  /** `PaperTradeLifecycle.close_partial`: what remains of the trade stays open
      unless it is at most the tolerance. */
  function ClosePartial(s: State, symbol: string, timestamp: int, price: real, quantity: real,
                        exitFees: real, exitSlippage: real, reference: real): Outcome<State>
  {
    if symbol !in s.open then Err(NotOpen)
    else
      var r := s.open[symbol];
      if price <= 0.0 || quantity <= 0.0 || exitFees < 0.0 || exitSlippage < 0.0 || reference <= 0.0 then Err(BadExit)
      else if exitSlippage > 0.0 && reference == price then Err(BadExit)
      else if quantity > r.quantity + TOLERANCE || timestamp < r.order.timestamp || r.quantity <= 0.0 then Err(BadExit)
      else
        var outcome := MakeOutcome(r, symbol, timestamp, price, quantity, exitFees, exitSlippage, reference);
        if !OutcomeOk(outcome) then Err(BadExit)
        else
          var closed := s.(outcomes := s.outcomes + [outcome]);
          var remaining := r.quantity - quantity;
          if remaining <= TOLERANCE then
            Ok(closed.(open := s.open - {symbol}, openKeys := Without(s.openKeys, symbol)))
          else
            Ok(closed.(open := s.open[symbol := r.(quantity := remaining,
                                                   entryFees := r.entryFees - Share(r.entryFees, quantity, r.quantity),
                                                   entrySlippage := r.entrySlippage - Share(r.entrySlippage, quantity,
                                                     r.quantity),
                                                   mae := 0.0, mfe := 0.0)]))
  }

  /** `PaperTradeLifecycle.open` for a filled order. */
  function OpenRecordFor(s: State, order: PaperOrder): Outcome<State> {
    if order.symbol in s.open then Err(AlreadyOpen)
    else
      Ok(s.(open := s.open[order.symbol := OpenRecord(order, order.quantity, order.fees, order.slippageCost, 0.0, 0.0)],
            openKeys := s.openKeys + [order.symbol]))
  }

  // ------------------------------------------------------------ simulated fills

  function SlippageRate(c: Config): real {
    c.slippageBps / 10000.0
  }

  function FillPrice(c: Config, direction: Direction, price: real): real {
    if direction.Long? then price * (1.0 + SlippageRate(c)) else price * (1.0 - SlippageRate(c))
  }

  function Fee(c: Config, fill: real, units: real): real {
    fill * units * c.feeBps / 10000.0
  }

  function SlippageCost(c: Config, price: real, units: real): real {
    price * units * SlippageRate(c)
  }

  function Opposite(direction: Direction): Direction {
    if direction.Long? then Short else Long
  }

  /** The exit half shared by `_close_trade` and `_close_partial_trade`: fill
      against the trade, charge the fee, hand the fill to the lifecycle. */
  function ExitTrade(c: Config, s: State, symbol: string, timestamp: int, price: Level,
      quantity: Option<real>): Outcome<State> {
    var trade := OpenTrade(s, symbol);
    if trade.None? then Err(NotOpen)
    else
      var order := trade.value;
      var units := if quantity.Some? then quantity.value else order.quantity;
      if !price.At? || price.price <= 0.0 || units <= 0.0 then Err(BadFill)
      else
        var fill := FillPrice(c, Opposite(order.direction), price.price);
        if fill <= 0.0 then Err(BadFill)
        else
          ClosePartial(s, symbol, timestamp, fill, units, Fee(c, fill, units), SlippageCost(c, price.price, units),
            price.price)
  }

  /** `_close_trade` at a market price. */
  function CloseTrade(c: Config, s: State, symbol: string, timestamp: int, price: Level): Outcome<State> {
    ExitTrade(c, s, symbol, timestamp, price, None)
  }

  /** `PaperTradingRuntime.submit` for an authorised decision. */
  function SubmitPaper(c: Config, a: ExecutionAuthorization, price: real): Outcome<PaperOrder> {
    var fill := FillPrice(c, a.direction, price);
    if price <= 0.0 || a.approvedQuantity <= 0.0 || a.direction.NoTrade? || fill <= 0.0 then Err(BadFill)
    else
      Ok(PaperOrder(a.timestamp, a.symbol, a.direction, price, fill, a.approvedQuantity,
                    Fee(c, fill, a.approvedQuantity), Abs(fill - price) * a.approvedQuantity))
  }

  // ------------------------------------------------------------ exit policy

  function StepsIn(part: real, step: real): int
    requires step > 0.0
  {
    (part / step).Floor
  }

  /** Whole steps in the configured fraction of a quantity. */
  function PartialSteps(c: Config, quantity: real): int
    requires c.quantityStep > 0.0
  {
    StepsIn(Times(quantity, c.partialExitFraction), c.quantityStep)
  }

  /** The size of the one partial exit a target hit takes. */
  function PartialSize(c: Config, quantity: real): real
    requires c.quantityStep > 0.0
  {
    Times(PartialSteps(c, quantity) as real, c.quantityStep)
  }

  predicate AtOrBelow(price: real, level: Level) {
    level.PosInf? || (level.At? && price <= level.price)
  }

  predicate AtOrAbove(price: real, level: Level) {
    level.NegInf? || (level.At? && price >= level.price)
  }

  predicate StopHit(direction: Direction, row: Row, levels: Levels) {
    if direction.Long? then Low(row) <= levels.stop else High(row) >= levels.stop
  }

  predicate TargetHit(direction: Direction, row: Row, levels: Levels) {
    if direction.Long? then AtOrAbove(High(row), levels.target) else AtOrBelow(Low(row), levels.target)
  }

  /** The target no price reaches, for a trade in this direction. */
  function Unreachable(direction: Direction): Level {
    if direction.Long? then PosInf else NegInf
  }

  /** `_manage_open_trade`: mark, then stop before target. */
  function ManageOpenTrade(c: Config, s: State, row: Row): Outcome<State>
    requires c.quantityStep > 0.0
  {
    var symbol := row.symbol;
    var trade := OpenTrade(s, symbol);
    if trade.None? then Ok(s)
    else
      var order := trade.value;
      match Mark(s, symbol, row.timestamp, row.close)
      case Err(e) => Err(e)
      case Ok(marked) =>
        if symbol !in s.levels then Ok(marked)
        else if High(row) <= 0.0 || Low(row) <= 0.0 || Low(row) > High(row) then Err(BadRange)
        else
          var levels := s.levels[symbol];
          if StopHit(order.direction, row, levels)
            then CloseAndForget(c, marked, symbol, row.timestamp, At(levels.stop))
          else if TargetHit(order.direction, row, levels) then TakeTarget(c, marked, row, order, levels)
          else Ok(marked)
  }

  /** Close the whole trade and drop its levels. */
  function CloseAndForget(c: Config, s: State, symbol: string, timestamp: int, price: Level): Outcome<State> {
    match CloseTrade(c, s, symbol, timestamp, price)
    case Err(e) => Err(e)
    case Ok(closed) => Ok(closed.(levels := closed.levels - {symbol}))
  }

  function TakeTarget(c: Config, s: State, row: Row, order: PaperOrder, levels: Levels): Outcome<State>
    requires c.quantityStep > 0.0
  {
    var quantity := PartialSize(c, order.quantity);
    if quantity <= 0.0 || quantity >= order.quantity then CloseAndForget(c, s, row.symbol, row.timestamp, levels.target)
    else
      match ExitTrade(c, s, row.symbol, row.timestamp, levels.target, Some(quantity))
      case Err(e) => Err(e)
      case Ok(after) =>
        Ok(after.(levels := after.levels[row.symbol := Levels(order.fillPrice, Unreachable(order.direction))]))
  }

  /** `_close_expired_trade`. */
  function CloseExpired(c: Config, s: State, symbol: string, timestamp: int, price: real): Outcome<State> {
    if symbol in s.open && timestamp - s.open[symbol].order.timestamp >= c.maxHolding then
      CloseAndForget(c, s, symbol, timestamp, At(price))
    else Ok(s)
  }

  /** The liquidation on a session-end row. */
  function CloseAtSessionEnd(c: Config, s: State, sessionEnd: bool, symbol: string, timestamp: int,
      price: real): Outcome<State> {
    if sessionEnd && symbol in s.open then CloseAndForget(c, s, symbol, timestamp, At(price)) else Ok(s)
  }

  // ------------------------------------------------------------ the portfolio

  datatype Portfolio = Portfolio(
    equity: real, dayStartEquity: real, realizedPnl: real, unrealizedPnl: real,
    openPositions: nat, tradesToday: nat, grossExposure: real, symbolAlreadyOpen: bool)

  function NetPnl(outcomes: seq<TradeOutcome>): real {
    if outcomes == [] then 0.0 else NetPnl(outcomes[..|outcomes| - 1]) + outcomes[|outcomes| - 1].netPnl
  }

  function NetPnlOn(outcomes: seq<TradeOutcome>, day: int): real {
    if outcomes == [] then 0.0
    else
      var last := outcomes[|outcomes| - 1];
      NetPnlOn(outcomes[..|outcomes| - 1], day) + (if IstDay(last.exitTime) == day then last.netPnl else 0.0)
  }

  function OrdersOn(journal: seq<PaperOrder>, day: int): nat {
    if journal == [] then 0
    else OrdersOn(journal[..|journal| - 1], day) + (if IstDay(journal[|journal| - 1].timestamp) == day then 1 else 0)
  }

  function MarkOf(s: State, symbol: string, default: real): real {
    if symbol in s.marks then s.marks[symbol] else default
  }

  function Gross(s: State, keys: seq<string>): real {
    if keys == [] then 0.0
    else
      var k := keys[|keys| - 1];
      Gross(s, keys[..|keys| - 1])
      + (if k in s.open then Times(s.open[k].quantity, MarkOf(s, k, s.open[k].order.fillPrice)) else 0.0)
  }

  function Unrealized(s: State, keys: seq<string>): real {
    if keys == [] then 0.0
    else
      var k := keys[|keys| - 1];
      Unrealized(s, keys[..|keys| - 1])
      + (if k in s.open then
           MoveValue(s.open[k].order.direction, s.open[k].order.fillPrice, MarkOf(s, k, s.open[k].order.fillPrice),
             s.open[k].quantity)
           - s.open[k].entryFees
         else 0.0)
  }

  /** `_current_equity`. */
  function CurrentEquity(c: Config, s: State): real {
    Max(EQUITY_FLOOR, c.startingEquity + NetPnl(s.outcomes))
  }

  /** The first half of `_portfolio_state`: a new day resets its opening equity. */
  function EnterDay(c: Config, s: State, timestamp: int): State {
    if s.activeDay == Some(IstDay(timestamp)) then s
    else s.(activeDay := Some(IstDay(timestamp)), dayStartEquity := CurrentEquity(c, s))
  }

  /** The second half of `_portfolio_state`. */
  function PortfolioOf(c: Config, s: State, timestamp: int, symbol: string): Portfolio {
    var day := IstDay(timestamp);
    var unrealized := Unrealized(s, s.openKeys);
    Portfolio(Max(EQUITY_FLOOR, c.startingEquity + NetPnl(s.outcomes) + unrealized), s.dayStartEquity,
              NetPnlOn(s.outcomes, day), unrealized, |s.openKeys|, OrdersOn(s.journal, day),
              Gross(s, s.openKeys), symbol in s.openKeys)
  }

  // ------------------------------------------------------------ one row

  /** What strategy and risk said about one row. Their decision is about that
      row: its symbol and timestamp are the row's. */
  datatype Assessment = Assessment(
    status: RiskStatus, direction: Direction, riskVersion: string, approvedQuantity: real, approvedNotional: real,
    positionSize: Option<real>, entryPrice: Option<real>, stopPrice: Option<real>, targetPrice: Option<real>)

  /** Strategy and risk together: any deterministic function of the row and the
      portfolio state; None when one of them raised. */
  type Decide = (Row, Portfolio) -> Option<Assessment>

  datatype Step = Step(row: Row, assessment: Assessment, authorization: ExecutionAuthorization,
    order: Option<PaperOrder>)

  /** The authorisation of an assessment, under a text built from the decision. */
  function Authorise(row: Row, a: Assessment, decisionId: string): Outcome<ExecutionAuthorization> {
    var d := RiskDecision(row.timestamp, row.symbol, a.status, a.direction, a.riskVersion, a.approvedQuantity,
      a.approvedNotional);
    if !RiskDecisionOk(d) then Err(BadDecision)
    else
      var size := if a.positionSize.Some? then a.positionSize.value else 0.0;
      var notional :=
        if a.positionSize.Some? && a.entryPrice.Some? then Times(a.entryPrice.value, a.positionSize.value) else 0.0;
      match AuthorizeRiskDecision(d, Some(size), Some(notional), decisionId, [])
      case Err(e) => Err(NotAuthorised(e))
      case Ok(authorization) => Ok(authorization)
  }

  /** `_handle_authorized_decision`: an opposite trade is closed first; levels
      are replaced only when the assessment carries both. */
  function HandleAuthorised(c: Config, s: State, a: ExecutionAuthorization, price: real, assessment: Assessment)
    : Outcome<(State, Option<PaperOrder>)>
  {
    var existing := OpenTrade(s, a.symbol);
    if existing.Some? && existing.value.direction == a.direction then Ok((s, None))
    else
      match (if existing.Some? then CloseTrade(c, s, a.symbol, a.timestamp, At(price)) else Ok(s))
      case Err(e) => Err(e)
      case Ok(flat) =>
        match SubmitPaper(c, a, price)
        case Err(e) => Err(e)
        case Ok(order) =>
          match OpenRecordFor(flat.(journal := flat.journal + [order]), order)
          case Err(e) => Err(e)
          case Ok(entered) =>
            var withLevels :=
              if assessment.stopPrice.Some? && assessment.targetPrice.Some?
              then entered.(levels :=
                entered.levels[a.symbol := Levels(assessment.stopPrice.value, At(assessment.targetPrice.value))])
              else entered;
            Ok((withLevels, Some(order)))
  }

  /** What a run fixes before its first row. */
  datatype Context = Context(config: Config, decide: Decide, sessionEnds: set<(string, int)>, finalTimestamp: int)

  /** The exits of one row: stop and target, expiry, session end. */
  function ExitPhase(x: Context, s: State, row: Row): Outcome<State>
    requires x.config.quantityStep > 0.0
  {
    match ManageOpenTrade(x.config, s, row)
    case Err(e) => Err(e)
    case Ok(managed) =>
      match CloseExpired(x.config, managed.(marks := managed.marks[row.symbol := row.price]), row.symbol,
        row.timestamp, row.price)
      case Err(e) => Err(e)
      case Ok(aged) =>
        CloseAtSessionEnd(x.config, aged, (row.symbol, row.timestamp) in x.sessionEnds, row.symbol, row.timestamp,
          row.price)
  }

  /** The decision of one row, after its exits. */
  function DecisionPhase(x: Context, s: State, row: Row): Outcome<(State, Step)> {
    var entered := EnterDay(x.config, s, row.timestamp);
    match x.decide(row, PortfolioOf(x.config, entered, row.timestamp, row.symbol))
    case None => Err(DecisionRaised)
    case Some(assessment) =>
      match Authorise(row, assessment, row.symbol + ":" + assessment.riskVersion)
      case Err(e) => Err(e)
      case Ok(authorization) =>
        if (row.symbol, row.timestamp) !in x.sessionEnds && row.timestamp < x.finalTimestamp
          && authorization.status.Authorized? then
          match HandleAuthorised(x.config, entered, authorization, row.price, assessment)
          case Err(e) => Err(e)
          case Ok((after, order)) => Ok((after, Step(row, assessment, authorization, order)))
        else Ok((entered, Step(row, assessment, authorization, None)))
  }

  /** One iteration of the loop in `run`. */
  function RowStep(x: Context, s: State, row: Row): Outcome<(State, Step)>
    requires x.config.quantityStep > 0.0
  {
    match ExitPhase(x, s, row)
    case Err(e) => Err(e)
    case Ok(flat) => DecisionPhase(x, flat, row)
  }

  /** The loop of `run`: the state and the steps after the given rows. */
  function Replay(x: Context, s: State, rows: seq<Row>): Outcome<(State, seq<Step>)>
    requires x.config.quantityStep > 0.0
  {
    if rows == [] then Ok((s, []))
    else
      match Replay(x, s, rows[..|rows| - 1])
      case Err(e) => Err(e)
      case Ok((before, steps)) =>
        match RowStep(x, before, rows[|rows| - 1])
        case Err(e) => Err(e)
        case Ok((after, step)) => Ok((after, steps + [step]))
  }

  // ------------------------------------------------------------ the whole run

  /** The per-row checks of `_prepare_rows`. */
  predicate RowOk(row: Row) {
    && !Blank(row.symbol) && row.close > 0.0
    && (row.high.Some? && row.low.Some? ==>
          row.high.value > 0.0 && row.low.value > 0.0 && row.high.value >= row.low.value)
  }

  function NormalizeRows(rows: seq<Row>): seq<Row> {
    if rows == [] then []
    else
      var last := rows[|rows| - 1];
      NormalizeRows(rows[..|rows| - 1]) + [last.(symbol := Normalize(last.symbol))]
  }

  predicate SameKey(a: Row, b: Row) {
    a.symbol == b.symbol && a.timestamp == b.timestamp
  }

  predicate HasDuplicates(rows: seq<Row>) {
    exists i, j :: 0 <= i < j < |rows| && SameKey(rows[i], rows[j])
  }

  predicate RowLess(a: Row, b: Row) {
    a.timestamp < b.timestamp || (a.timestamp == b.timestamp && TextLess(a.symbol, b.symbol))
  }

  function InsertRow(sorted: seq<Row>, row: Row): seq<Row> {
    if sorted != [] && RowLess(row, sorted[|sorted| - 1])
    then InsertRow(sorted[..|sorted| - 1], row) + [sorted[|sorted| - 1]]
    else sorted + [row]
  }

  /** The stable sort by timestamp, then symbol. */
  function SortRows(rows: seq<Row>): seq<Row> {
    if rows == [] then [] else InsertRow(SortRows(rows[..|rows| - 1]), rows[|rows| - 1])
  }

  /** `_prepare_rows`. */
  function Prepare(rows: seq<Row>): Outcome<seq<Row>> {
    if exists i :: 0 <= i < |rows| && !RowOk(rows[i]) then Err(BadRow)
    else if HasDuplicates(NormalizeRows(rows)) then Err(DuplicateRow)
    else Ok(SortRows(NormalizeRows(rows)))
  }

  predicate SameDay(a: Row, b: Row) {
    a.symbol == b.symbol && IstDay(a.timestamp) == IstDay(b.timestamp)
  }

  /** No row of the same symbol comes later on the same IST day. */
  predicate LastOfItsDay(rows: seq<Row>, row: Row) {
    forall i :: 0 <= i < |rows| && SameDay(rows[i], row) ==> rows[i].timestamp <= row.timestamp
  }

  /** `_session_end_rows`: per symbol and IST day, the latest timestamp. */
  function SessionEnds(rows: seq<Row>): set<(string, int)> {
    set i | 0 <= i < |rows| && LastOfItsDay(rows, rows[i]) :: (rows[i].symbol, rows[i].timestamp)
  }

  function LatestTimestamp(rows: seq<Row>): int
    requires rows != []
  {
    if |rows| == 1 || rows[|rows| - 1].timestamp >= LatestTimestamp(rows[..|rows| - 1]) then rows[|rows| - 1].timestamp
    else LatestTimestamp(rows[..|rows| - 1])
  }

  function ContextOf(c: Config, decide: Decide, rows: seq<Row>): Context
    requires rows != []
  {
    Context(c, decide, SessionEnds(rows), LatestTimestamp(rows))
  }

  /** `_close_remaining_trades` over the symbols of the first `k` rows: a trade
      that is still open is closed on its symbol's last row. */
  function CloseRemaining(c: Config, s: State, rows: seq<Row>, k: nat): Outcome<State>
    requires k <= |rows|
  {
    if k == 0 then Ok(s)
    else
      match CloseRemaining(c, s, rows, k - 1)
      case Err(e) => Err(e)
      case Ok(before) =>
        var symbol := rows[k - 1].symbol;
        if symbol !in before.open then Ok(before)
        else
          var final := LastRowOf(rows, symbol, k - 1);
          CloseAndForget(c, before, symbol, final.timestamp, At(final.price))
  }

  function LastRowOf(rows: seq<Row>, symbol: string, k: nat): Row
    requires k < |rows| && rows[k].symbol == symbol
    decreases |rows|
  {
    if rows[|rows| - 1].symbol == symbol then rows[|rows| - 1] else LastRowOf(rows[..|rows| - 1], symbol, k)
  }

  datatype BacktestResult = BacktestResult(steps: seq<Step>, outcomes: seq<TradeOutcome>)

  /** `run`. */
  function Run(c: Config, decide: Decide, s: State, rows: seq<Row>): Outcome<(State, BacktestResult)>
    requires c.quantityStep > 0.0
  {
    match Prepare(rows)
    case Err(e) => Err(e)
    case Ok(working) =>
      if working == [] then Ok((s, BacktestResult([], [])))
      else
        match Replay(ContextOf(c, decide, working), s, working)
        case Err(e) => Err(e)
        case Ok((replayed, steps)) =>
          match CloseRemaining(c, replayed, working, |working|)
          case Err(e) => Err(e)
          case Ok(after) => Ok((after, BacktestResult(steps, after.outcomes)))
  }
}
