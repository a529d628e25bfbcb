/** The order execution protocol as a state machine. Every engine operation is
    a function from a state and what the outside world did (the broker's reply,
    whether the audit sink raised) to the next state and the call's outcome. */
module OrderProtocol {
  import opened Common
  import opened Authority

  datatype OrderStatus =
    | Created | Validated | RejectedLocal | Submitting | Submitted | Acknowledged
    | Open | PartiallyFilled | Filled | CancelPending | Cancelled | RejectedBroker
    | Expired | Failed | Unknown

  /** `OrderStateMachine._ALLOWED`. */
  function AllowedTargets(current: OrderStatus): set<OrderStatus> {
    match current
    case Created => {Validated, RejectedLocal}
    case Validated => {Submitting, RejectedLocal}
    case RejectedLocal => {}
    case Submitting => {Submitted, PartiallyFilled, Filled, RejectedBroker, Failed, Unknown}
    case Submitted => {Acknowledged, Open, PartiallyFilled, Filled, RejectedBroker, Unknown}
    case Acknowledged => {Open, PartiallyFilled, Filled, RejectedBroker, Unknown}
    case Open => {PartiallyFilled, Filled, CancelPending, Cancelled, Expired, Unknown}
    case PartiallyFilled => {PartiallyFilled, Filled, CancelPending, Cancelled, Unknown}
    case CancelPending => {Cancelled, Filled, Unknown}
    case Filled => {Unknown}
    case Cancelled => {Filled, Unknown}
    case Expired => {Unknown}
    case RejectedBroker => {Unknown}
    case Failed => {Unknown}
    case Unknown =>
      {Submitted, Acknowledged, Open, PartiallyFilled, Filled, CancelPending, Cancelled, RejectedBroker, Failed}
  }

  /** Statuses that only this side of the wire assigns. */
  const LOCAL_STATUSES: set<OrderStatus> := {Created, Validated, RejectedLocal}

  datatype Fill = Fill(fillId: string, clientOrderId: string, quantity: real, price: real, fee: real)

  datatype OrderSnapshot = OrderSnapshot(
    brokerOrderId: string,
    clientOrderId: string,
    status: OrderStatus,
    requestedQuantity: real,
    filledQuantity: real,
    averageFillPrice: Option<real>,
    reason: string,
    latencyMs: Option<real>,
    fills: seq<Fill>)

  /** The constructor checks of OrderSnapshot. */
  predicate SnapshotOk(s: OrderSnapshot) {
    && !Blank(s.brokerOrderId) && !Blank(s.clientOrderId)
    && s.requestedQuantity > 0.0
    && 0.0 <= s.filledQuantity <= s.requestedQuantity + TOLERANCE
    && (s.averageFillPrice.Some? ==> s.averageFillPrice.value > 0.0)
    && (s.latencyMs.Some? ==> s.latencyMs.value >= 0.0)
  }

  datatype Event = Event(
    clientOrderId: string,
    decisionId: string,
    purpose: string,
    fromStatus: Option<OrderStatus>,
    toStatus: OrderStatus,
    reason: string)

  /** The engine's fields. `submissions` records every order handed to the
      broker's `submit`; the engine itself keeps no such log. */
  datatype EngineState = EngineState(
    orders: map<string, OrderSnapshot>,
    requests: map<string, OrderRequest>,
    fills: map<string, seq<Fill>>,
    states: map<string, OrderStatus>,
    events: seq<Event>,
    submissions: seq<OrderRequest>)

  const INITIAL: EngineState := EngineState(map[], map[], map[], map[], [], [])

  /** What one broker call did: it returned a snapshot, returned None, or raised. */
  datatype Reply = Reported(snapshot: OrderSnapshot) | NoRecord | Raised(message: string)

  /** Which appends of one call the audit sink refuses: those of its first,
      second and third lifecycle event, and the records written after the
      result is stored. No sink at all is `HEALTHY_SINK`. */
  datatype Sink = Sink(first: bool, second: bool, third: bool, trailing: bool)

  const HEALTHY_SINK := Sink(false, false, false, false)

  datatype Failure =
    | InvalidOrder(cause: AuthorityError)
    | AuthorizationMissing
    | IllegalTransition(fromStatus: OrderStatus, toStatus: OrderStatus)
    | SinkRaised
    | BrokerRaised(message: string)
    | MissingReply
    | IdMismatch
    | SizeMismatch
    | ContractViolated
    | UnknownOrder
    | BlankId
    | NotCancellable

  type Outcome<+T> = Result<T, Failure>

  /** A call's next state together with what it returned or raised. */
  datatype Done<+T> = Done(state: EngineState, outcome: Outcome<T>)

  datatype ExecutionResult = ExecutionResult(
    request: OrderRequest, snapshot: OrderSnapshot, accepted: bool, latencyMs: real, error: Option<string>)

  /** `_transition`: one validated, journaled status change. */
  function Transition(s: EngineState, id: string, target: OrderStatus, reason: string, sinkRaises: bool): Done<()> {
    var current := if id in s.states then Some(s.states[id]) else None;
    if current == Some(target) then Done(s, Ok(()))
    else if current.Some? && target !in AllowedTargets(current.value) then
      Done(s, Err(IllegalTransition(current.value, target)))
    else
      var event := Event(id,
                         if id in s.requests then s.requests[id].decisionId else "",
                         if id in s.requests then s.requests[id].purpose else "ENTRY",
                         current, target, reason);
      Done(s.(states := s.states[id := target], events := s.events + [event]),
           if sinkRaises then Err(SinkRaised) else Ok(()))
  }

  /** The snapshot becomes the stored order, with its fills. */
  function Store(s: EngineState, id: string, snapshot: OrderSnapshot): EngineState {
    s.(orders := s.orders[id := snapshot], fills := s.fills[id := snapshot.fills])
  }

  /** `_validate_snapshot_contract`; ACKNOWLEDGED, SUBMITTING and the local
      statuses carry no quantity rule. */
  predicate ContractHolds(s: OrderSnapshot) {
    match s.status
    case Filled => Abs(s.filledQuantity - s.requestedQuantity) <= TOLERANCE
    case PartiallyFilled => 0.0 < s.filledQuantity < s.requestedQuantity
    case Submitted | Open | CancelPending | Cancelled | Expired | RejectedBroker | Failed | Unknown =>
      0.0 <= s.filledQuantity <= s.requestedQuantity
    case _ => true
  }

  /** `validate`: the order must repeat its own authorization exactly. */
  function Validate(order: OrderRequest): Outcome<()> {
    if order.authorization.None? then Err(AuthorizationMissing)
    else
      var a := order.authorization.value;
      if !a.status.Authorized? then Err(InvalidOrder(NotAuthorized))
      else if order.quantity != a.approvedQuantity then Err(InvalidOrder(QuantityMismatch))
      else if order.symbol != a.symbol then Err(InvalidOrder(SymbolMismatch))
      else
        match SideFor(a.direction)
        case Err(e) => Err(InvalidOrder(e))
        case Ok(side) =>
          if order.side != side then Err(InvalidOrder(DirectionMismatch))
          else if order.quantity <= 0.0 then Err(InvalidOrder(NonPositiveApproval))
          else Ok(())
  }

  function OrElse(text: string, default: string): string {
    if text != "" then text else default
  }

  function ErrorText(text: string): Option<string> {
    if text != "" then Some(text) else None
  }

  /** What `submit` stores when the broker call raised. */
  function UnknownSubmission(order: OrderRequest, message: string): OrderSnapshot {
    OrderSnapshot("UNKNOWN:" + order.clientOrderId, order.clientOrderId, Unknown, order.quantity, 0.0, None,
                  "broker submission exception: " + message, None, [])
  }

  predicate Accepted(status: OrderStatus) {
    status !in {RejectedLocal, RejectedBroker, Failed}
  }

  /** `submit`: validate, claim the id, call the broker once, store its answer.
      `latency` is the measured duration of the broker call. */
  function Submit(s: EngineState, order: OrderRequest, reply: Reply, sink: Sink, latency: real): Done<ExecutionResult>
  {
    var id := order.clientOrderId;
    var checked := Validate(order);
    if checked.Err? then Done(s, Err(checked.error))
    else
      var s0 := if id in s.requests then s else s.(requests := s.requests[id := order]);
      if id in s0.orders then
        Done(s0, Ok(ExecutionResult(order, s0.orders[id], Accepted(s0.orders[id].status), 0.0, None)))
      else
        var begun := BeginSubmission(s0, id, sink);
        if begun.outcome.Err? then Done(begun.state, Err(begun.outcome.error))
        else AfterBrokerSubmit(begun.state.(submissions := begun.state.submissions + [order]), order, reply, sink,
          latency)
  }

  /** The two events that `submit` journals before the broker call. */
  function BeginSubmission(s: EngineState, id: string, sink: Sink): Done<()> {
    var t := Transition(s, id, Validated, "local validation passed", sink.first);
    if t.outcome.Err? then t
    else Transition(t.state, id, Submitting, "broker submission started", sink.second)
  }

  /** The part of `submit` that follows the broker call. */
  function AfterBrokerSubmit(s: EngineState, order: OrderRequest, reply: Reply, sink: Sink,
      latency: real): Done<ExecutionResult>
  {
    var id := order.clientOrderId;
    match reply
    case NoRecord => Done(s, Err(MissingReply))
    case Raised(message) =>
      var unknown := UnknownSubmission(order, message);
      var t := Transition(s, id, Unknown, unknown.reason, sink.third);
      if t.outcome.Err? then Done(t.state, Err(t.outcome.error))
      else
        Done(t.state.(orders := t.state.orders[id := unknown]),
             Ok(ExecutionResult(order, unknown, false, latency, Some(message))))
    case Reported(reported) =>
      if reported.clientOrderId != id then Done(s, Err(IdMismatch))
      else if reported.requestedQuantity != order.quantity then Done(s, Err(SizeMismatch))
      else if !ContractHolds(reported) then Done(s, Err(ContractViolated))
      else
        var snapshot :=
          if reported.latencyMs.None? then reported.(latencyMs := Some(latency)) else reported;
        var t := Transition(s, id, snapshot.status, OrElse(snapshot.reason, "broker acknowledged order"), sink.third);
        if t.outcome.Err? then Done(t.state, Err(t.outcome.error))
        else if sink.trailing then Done(Store(t.state, id, snapshot), Err(SinkRaised))
        else
          Done(Store(t.state, id, snapshot),
               Ok(ExecutionResult(order, snapshot, snapshot.status !in {RejectedBroker, Failed}, latency,
                                  ErrorText(snapshot.reason))))
  }

  /** `refresh`: merge what the broker reports, or record that it reports nothing. */
  function Refresh(s: EngineState, id: string, reply: Reply, sink: Sink): Done<OrderSnapshot> {
    if Blank(id) then Done(s, Err(BlankId))
    else
      match reply
      case Raised(message) => Done(s, Err(BrokerRaised(message)))
      case NoRecord =>
        if id !in s.orders then Done(s, Err(UnknownOrder))
        else
          var unknown := s.orders[id].(status := Unknown, reason := "broker returned no order state");
          var t := Transition(s, id, Unknown, unknown.reason, sink.first);
          if t.outcome.Err? then Done(t.state, Err(t.outcome.error))
          else Done(t.state.(orders := t.state.orders[id := unknown]), Ok(unknown))
      case Reported(snapshot) =>
        var t := if id !in s.states then Done(s.(states := s.states[id := snapshot.status]), Ok(()))
                 else Transition(s, id, snapshot.status, "broker refresh", sink.first);
        if t.outcome.Err? then Done(t.state, Err(t.outcome.error))
        else Done(Store(t.state, id, snapshot), Ok(snapshot))
  }

  /** `recover_unknown`: only broker truth resolves UNKNOWN. */
  function RecoverUnknown(s: EngineState, id: string, reply: Reply, sink: Sink): Done<OrderSnapshot> {
    if id !in s.orders then Done(s, Err(UnknownOrder))
    else
      var prior := s.orders[id];
      if !prior.status.Unknown? then Done(s, Ok(prior))
      else
        match reply
        case Raised(message) => Done(s, Err(BrokerRaised(message)))
        case NoRecord => Done(s, Ok(prior))
        case Reported(snapshot) =>
          if snapshot.clientOrderId != id then Done(s, Err(IdMismatch))
          else if snapshot.requestedQuantity != prior.requestedQuantity then Done(s, Err(SizeMismatch))
          else if !ContractHolds(snapshot) then Done(s, Err(ContractViolated))
          else
            var t := Transition(s, id, snapshot.status,
              OrElse(snapshot.reason, "unknown order resolved from broker state"),
                                sink.first);
            if t.outcome.Err? then Done(t.state, Err(t.outcome.error))
            else Done(Store(t.state, id, snapshot), Ok(snapshot))
  }

  /** `rehydrate` for one id; None means the id was skipped. */
  function RehydrateOne(s: EngineState, id: string, reply: Reply): Done<Option<OrderSnapshot>> {
    if Blank(id) then Done(s, Err(BlankId))
    else if reply.Raised? then Done(s, Err(BrokerRaised(reply.message)))
    else if reply.NoRecord? && id !in s.orders then Done(s, Ok(None))
    else
      var snapshot :=
        if reply.Reported? then reply.snapshot
        else s.orders[id].(clientOrderId := id, status := Unknown,
                           reason := "broker returned no order state during rehydration");
      if !ContractHolds(snapshot) then Done(s, Err(ContractViolated))
      else Done(Store(s, id, snapshot).(states := s.states[id := snapshot.status]), Ok(Some(snapshot)))
  }

  /** `rehydrate`: the ids in order, each with the broker's reply for it; an
      exception keeps the work already done. */
  function Rehydrate(s: EngineState, ids: seq<(string, Reply)>): Done<map<string, OrderSnapshot>> {
    if ids == [] then Done(s, Ok(map[]))
    else
      var earlier := Rehydrate(s, ids[..|ids| - 1]);
      if earlier.outcome.Err? then earlier
      else
        var (id, reply) := ids[|ids| - 1];
        var one := RehydrateOne(earlier.state, id, reply);
        match one.outcome
        case Err(e) => Done(one.state, Err(e))
        case Ok(None) => Done(one.state, earlier.outcome)
        case Ok(Some(snapshot)) => Done(one.state, Ok(earlier.outcome.value[id := snapshot]))
  }

  /** `cancel`: the request is journaled before the broker is asked. */
  function Cancel(s: EngineState, id: string, reply: Reply, sink: Sink): Done<OrderSnapshot> {
    if id !in s.orders then Done(s, Err(UnknownOrder))
    else if s.orders[id].status in {Filled, Cancelled, RejectedBroker} then Done(s, Err(NotCancellable))
    else
      var t1 := Transition(s, id, CancelPending, "cancellation requested", sink.first);
      if t1.outcome.Err? then Done(t1.state, Err(t1.outcome.error))
      else
        match reply
        case NoRecord => Done(t1.state, Err(MissingReply))
        case Raised(message) => Done(t1.state, Err(BrokerRaised(message)))
        case Reported(snapshot) =>
          var t2 := if snapshot.status.CancelPending? then Done(t1.state, Ok(()))
                    else Transition(t1.state, id, snapshot.status, OrElse(snapshot.reason, "cancellation result"),
                      sink.second);
          if t2.outcome.Err? then Done(t2.state, Err(t2.outcome.error))
          else Done(Store(t2.state, id, snapshot), Ok(snapshot))
  }

  /** One call on one engine, with everything the outside world did during it. */
  datatype Call =
    | SubmitCall(order: OrderRequest, reply: Reply, sink: Sink, latency: real)
    | RefreshCall(id: string, reply: Reply, sink: Sink)
    | RecoverCall(id: string, reply: Reply, sink: Sink)
    | RehydrateCall(ids: seq<(string, Reply)>)
    | CancelCall(id: string, reply: Reply, sink: Sink)

  function Erase<T>(o: Outcome<T>): Outcome<()> {
    if o.Ok? then Ok(()) else Err(o.error)
  }

  function Step(s: EngineState, call: Call): Done<()> {
    match call
    case SubmitCall(order, reply, sink, latency) =>
      var d := Submit(s, order, reply, sink, latency); Done(d.state, Erase(d.outcome))
    case RefreshCall(id, reply, sink) => var d := Refresh(s, id, reply, sink); Done(d.state, Erase(d.outcome))
    case RecoverCall(id, reply, sink) => var d := RecoverUnknown(s, id, reply, sink); Done(d.state, Erase(d.outcome))
    case RehydrateCall(ids) => var d := Rehydrate(s, ids); Done(d.state, Erase(d.outcome))
    case CancelCall(id, reply, sink) => var d := Cancel(s, id, reply, sink); Done(d.state, Erase(d.outcome))
  }

  /** The state after a sequence of calls on a fresh engine; a raised call does
      not stop later calls. */
  function Run(calls: seq<Call>): EngineState {
    if calls == [] then INITIAL
    else Step(Run(calls[..|calls| - 1]), calls[|calls| - 1]).state
  }
}
