/** What each call of the engine answers, read off the state it leaves, and the
    status graph read backwards. */
module OrderAnswers {
  import opened Common
  import opened Authority
  import opened OrderProtocol
  import opened OrderCells
  import opened OrderSafety
  import opened OrderNames

  // ------------------------------------------------------------ the status graph

  /** From where a status can be entered. */
  ghost function SourcesOf(target: OrderStatus): set<OrderStatus> {
    match target
    case Created => {}
    case Validated => {Created}
    case RejectedLocal => {Created, Validated}
    case Submitting => {Validated}
    case Submitted => {Submitting, Unknown}
    case Acknowledged => {Submitted, Unknown}
    case Open => {Submitted, Acknowledged, Unknown}
    case PartiallyFilled => {Submitting, Submitted, Acknowledged, Open, PartiallyFilled, Unknown}
    case Filled => {Submitting, Submitted, Acknowledged, Open, PartiallyFilled, CancelPending, Cancelled, Unknown}
    case CancelPending => {Open, PartiallyFilled, Unknown}
    case Cancelled => {Open, PartiallyFilled, CancelPending, Unknown}
    case RejectedBroker => {Submitting, Submitted, Acknowledged, Unknown}
    case Expired => {Open}
    case Failed => {Submitting, Unknown}
    case Unknown =>
      {Submitting, Submitted, Acknowledged, Open, PartiallyFilled, CancelPending, Filled, Cancelled, Expired,
        RejectedBroker, Failed}
  }

  /** Every edge, in both readings: a fill is accepted in any state between
      submission and its own end, a late one even after a cancellation; nothing
      leads back before submission; and every broker-side status can be lost to
      UNKNOWN. */
  lemma EveryEdgeBothWays(a: OrderStatus, b: OrderStatus)
    ensures b in AllowedTargets(a) <==> a in SourcesOf(b)
  {
  }

  // ------------------------------------------------------------ submit

  /** `validate` accepts exactly the orders that repeat their authorization. */
  lemma ValidatesExactlyWhen(order: OrderRequest)
    ensures Validate(order).Ok? <==>
            && order.authorization.Some?
            && var a := order.authorization.value;
               && a.status == Authorized && order.symbol == a.symbol && order.quantity == a.approvedQuantity > 0.0
               && ((a.direction == Long && order.side == Buy) || (a.direction == Short && order.side == Sell))
  {
  }

  /** This call handed its order to the broker: the id was not stored before. */
  ghost predicate Fresh(s: EngineState, order: OrderRequest) {
    order.clientOrderId !in s.orders
  }

  /** `submit` returns exactly when the order is valid and either known already
      or stored by this call with every record written. */
  lemma SubmitReturnsExactlyWhen(s: EngineState, order: OrderRequest, reply: Reply, sink: Sink, latency: real)
    ensures Submit(s, order, reply, sink, latency).outcome.Ok? <==>
            && Validate(order).Ok?
            && (Fresh(s, order) ==> SubmitStores(s, order, reply, sink) && (reply.Reported? ==> !sink.trailing))
  {
    hide BeginSubmission, AfterBrokerSubmit, Validate, AllowedTargets;
    if Validate(order).Ok? && Fresh(s, order) {
      var k := order.clientOrderId;
      var s0 := if k in s.requests then s else s.(requests := s.requests[k := order]);
      var begun := BeginSubmission(s0, k, sink);
      BeginSubmissionCell(s0, k, sink, k);
      assert CellOf(s0, k) == CellOf(s, k);
      if begun.outcome.Ok? {
        assert begun.state.states[k] == Submitting;
        BrokerAnswers(begun.state.(submissions := begun.state.submissions + [order]), order, reply, sink, latency);
      }
    }
  }

  lemma BrokerAnswers(s: EngineState, order: OrderRequest, reply: Reply, sink: Sink, latency: real)
    requires order.clientOrderId in s.states && s.states[order.clientOrderId] == Submitting
    ensures var d := AfterBrokerSubmit(s, order, reply, sink, latency);
            && (d.outcome.Ok? <==> AnswerStores(order, reply, sink) && (reply.Reported? ==> !sink.trailing))
            && (d.outcome.Ok? ==> AnswersFor(order, reply, latency, d))
  {
    hide Transition, ContractHolds;
    if reply.Raised? {
      TransitionMoves(s, order.clientOrderId, Unknown, UnknownSubmission(order, reply.message).reason, sink.third);
      assert Unknown in AllowedTargets(Submitting);
    } else if reply.Reported? {
      TransitionMoves(s, order.clientOrderId, reply.snapshot.status,
                      OrElse(reply.snapshot.reason, "broker acknowledged order"), sink.third);
    }
  }

  /** The answer of a submission that reached the broker: the report, completed
      with the latency; or an UNKNOWN, unfilled order that was not accepted. */
  ghost predicate AnswersFor(order: OrderRequest, reply: Reply, latency: real, d: Done<ExecutionResult>) {
    d.outcome.Ok? && !reply.NoRecord? &&
    var id, r := order.clientOrderId, d.outcome.value;
    && r.request == order && r.latencyMs == latency && id in d.state.orders && d.state.orders[id] == r.snapshot
    && match reply
       case Raised(message) =>
         && !r.accepted && r.error == Some(message)
         && r.snapshot.reason == "broker submission exception: " + message
         && r.snapshot.status == Unknown && r.snapshot.filledQuantity == 0.0 && r.snapshot.fills == []
         && r.snapshot.clientOrderId == id && r.snapshot.requestedQuantity == order.quantity
       case Reported(report) =>
         && r.snapshot == report.(latencyMs := r.snapshot.latencyMs)
         && r.snapshot.latencyMs == Some(if report.latencyMs.Some? then report.latencyMs.value else latency)
         && (r.accepted <==> report.status != RejectedBroker && report.status != Failed)
         && r.error == (if report.reason == "" then None else Some(report.reason))
  }

  lemma AcceptedMeans(status: OrderStatus)
    ensures Accepted(status) <==> status != RejectedLocal && status != RejectedBroker && status != Failed
  {
  }

  /** What `submit` answers, in every state and for every reply. The result is
      about the order, and its snapshot is what the engine stores under the id.
      It is accepted exactly when the stored status is none of the three
      rejections and this call's broker submission did not raise. An error is
      present exactly when it raised, with its message, or when this call stored
      a report with a reason. */
  lemma SubmitAnswers(s: EngineState, order: OrderRequest, reply: Reply, sink: Sink, latency: real)
    requires Submit(s, order, reply, sink, latency).outcome.Ok?
    ensures var d := Submit(s, order, reply, sink, latency);
            var id, r := order.clientOrderId, d.outcome.value;
            && r.request == order && id in d.state.orders && d.state.orders[id] == r.snapshot
            && (r.accepted <==>
                  && d.state.orders[id].status != RejectedLocal && d.state.orders[id].status != RejectedBroker
                  && d.state.orders[id].status != Failed && !(Fresh(s, order) && reply.Raised?))
            && r.error == (if !Fresh(s, order) then None
                           else if reply.Raised? then Some(reply.message)
                           else if d.state.orders[id].reason != "" then Some(d.state.orders[id].reason)
                           else None)
            && r.latencyMs == (if Fresh(s, order) then latency else 0.0)
            && (Fresh(s, order) ==> AnswersFor(order, reply, latency, d))
            && (!Fresh(s, order) ==> d.state.orders == s.orders && d.state.submissions == s.submissions)
  {
    hide BeginSubmission, AfterBrokerSubmit, Validate, AllowedTargets, Accepted;
    var k := order.clientOrderId;
    if Fresh(s, order) {
      var s0 := if k in s.requests then s else s.(requests := s.requests[k := order]);
      var begun := BeginSubmission(s0, k, sink);
      BeginSubmissionCell(s0, k, sink, k);
      assert begun.outcome.Ok?;
      assert begun.state.states[k] == Submitting;
      BrokerAnswers(begun.state.(submissions := begun.state.submissions + [order]), order, reply, sink, latency);
      NeverRejectedLocally(order, reply, sink);
    } else {
      AcceptedMeans(s.orders[k].status);
    }
  }

  /** A submission is never answered with a purely local status. */
  lemma NeverRejectedLocally(order: OrderRequest, reply: Reply, sink: Sink)
    ensures AnswerStores(order, reply, sink) && reply.Reported? ==> reply.snapshot.status != RejectedLocal
  {
    hide ContractHolds;
  }

  // ------------------------------------------------------------ the other calls

  /** What a report must satisfy to be believed: filled means filled, partially
      filled means strictly between, and no other broker-side status but
      ACKNOWLEDGED leaves its quantity unchecked. */
  lemma ReportsAreBelievedExactlyWhen(r: OrderSnapshot)
    ensures ContractHolds(r) <==>
            && (r.status == Filled ==>
                  -0.000000000001 <= r.filledQuantity - r.requestedQuantity <= 0.000000000001)
            && (r.status == PartiallyFilled ==> 0.0 < r.filledQuantity < r.requestedQuantity)
            && (r.status in {Submitted, Open, CancelPending, Cancelled, Expired, RejectedBroker, Failed, Unknown} ==>
                  0.0 <= r.filledQuantity <= r.requestedQuantity)
  {
  }

  /** The engine has taken a report: it is stored, with its status and fills. */
  ghost predicate Took(s: EngineState, id: string, report: OrderSnapshot) {
    && id in s.orders && s.orders[id] == report
    && id in s.states && s.states[id] == report.status
    && id in s.fills && s.fills[id] == report.fills
  }

  /** Everything that is held about an id. */
  ghost function HeldOf(s: EngineState, id: string): (Cell, Option<seq<Fill>>) {
    (CellOf(s, id), if id in s.fills then Some(s.fills[id]) else None)
  }

  lemma TookIsHeld(s: EngineState, after: EngineState, id: string, report: OrderSnapshot)
    requires HeldOf(s, id) == HeldOf(after, id)
    ensures Took(s, id, report) <==> Took(after, id, report)
  {
  }

  /** `refresh` returns exactly when the broker has a record whose status may
      come next, or has none of an order that may become UNKNOWN. It returns what
      it then holds: the report, or the order as it was with the status UNKNOWN. */
  lemma RefreshAnswers(s: EngineState, id: string, reply: Reply, sink: Sink)
    requires Tracked(s)
    ensures var d := Refresh(s, id, reply, sink);
            && (d.outcome.Ok? <==>
                  && Strip(id) != "" && !reply.Raised?
                  && (reply.Reported? ==> id !in s.states || Moves(s, id, reply.snapshot.status, sink.first))
                  && (reply.NoRecord? ==> id in s.orders && Moves(s, id, Unknown, sink.first)))
            && (d.outcome.Ok? && reply.Reported? ==>
                  d.outcome.value == reply.snapshot && Took(d.state, id, reply.snapshot))
            && (d.outcome.Ok? && reply.NoRecord? ==>
                  && id in d.state.orders && d.state.orders[id] == d.outcome.value
                  && d.outcome.value == s.orders[id].(status := Unknown, reason := "broker returned no order state")
                  && id in d.state.states && d.state.states[id] == Unknown)
            && (d.outcome.Err? ==> d.state.orders == s.orders && d.state.fills == s.fills)
  {
    hide Transition, Strip;
    TransitionMoves(s, id, Unknown, "broker returned no order state", sink.first);
    TransitionKeepsRecords(s, id, Unknown, "broker returned no order state", sink.first);
    if reply.Reported? {
      TransitionMoves(s, id, reply.snapshot.status, "broker refresh", sink.first);
      TransitionKeepsRecords(s, id, reply.snapshot.status, "broker refresh", sink.first);
    }
  }

  /** A fill that is reported after the cancellation is still taken. */
  lemma LateFillsAreTaken(s: EngineState, id: string, filled: OrderSnapshot)
    requires Tracked(s) && Strip(id) != "" && id in s.states && s.states[id] in {CancelPending, Cancelled}
    requires filled.status == Filled
    ensures var d := Refresh(s, id, Reported(filled), HEALTHY_SINK);
            d.outcome == Ok(filled) && Took(d.state, id, filled)
  {
    EveryEdgeBothWays(s.states[id], Filled);
    RefreshAnswers(s, id, Reported(filled), HEALTHY_SINK);
    hide Refresh, Strip, AllowedTargets;
  }

  /** `recover_unknown` leaves an order alone unless it is UNKNOWN and the broker
      has a believable record of it, in its size, whose status may come next. */
  lemma RecoverAnswers(s: EngineState, id: string, reply: Reply, sink: Sink)
    requires Tracked(s)
    ensures var d := RecoverUnknown(s, id, reply, sink);
            var asks := id in s.orders && s.orders[id].status == Unknown;
            && (d.outcome.Ok? <==>
                  && id in s.orders
                  && (asks ==>
                        && !reply.Raised?
                        && (reply.Reported? ==>
                              && reply.snapshot.clientOrderId == id
                              && reply.snapshot.requestedQuantity == s.orders[id].requestedQuantity
                              && ContractHolds(reply.snapshot) && Moves(s, id, reply.snapshot.status, sink.first))))
            && (d.outcome.Ok? && asks && reply.Reported? ==>
                  d.outcome.value == reply.snapshot && Took(d.state, id, reply.snapshot))
            && (d.outcome.Ok? && (!asks || reply.NoRecord?) ==> d.outcome.value == s.orders[id] && d.state == s)
            && (d.outcome.Err? ==> d.state.orders == s.orders && d.state.fills == s.fills)
  {
    hide Transition, ContractHolds;
    if reply.Reported? {
      var reason := OrElse(reply.snapshot.reason, "unknown order resolved from broker state");
      TransitionMoves(s, id, reply.snapshot.status, reason, sink.first);
      TransitionKeepsRecords(s, id, reply.snapshot.status, reason, sink.first);
    }
  }

  /** `cancel` returns exactly when the order is known, not over, may be
      cancelled, and the broker's answer may follow CANCEL_PENDING; it then holds
      that answer. */
  lemma CancelAnswers(s: EngineState, id: string, reply: Reply, sink: Sink)
    requires Tracked(s)
    ensures var d := Cancel(s, id, reply, sink);
            && (d.outcome.Ok? <==>
                  && id in s.orders && s.orders[id].status != Filled && s.orders[id].status != Cancelled
                  && s.orders[id].status != RejectedBroker && Moves(s, id, CancelPending, sink.first) && reply.Reported?
                  && (reply.snapshot.status == CancelPending
                      || (reply.snapshot.status in {Cancelled, Filled, Unknown} && !sink.second)))
            && (d.outcome.Ok? ==> d.outcome.value == reply.snapshot && Took(d.state, id, reply.snapshot))
            && (d.outcome.Err? ==> d.state.orders == s.orders && d.state.fills == s.fills)
  {
    hide Transition;
    TransitionMoves(s, id, CancelPending, "cancellation requested", sink.first);
    TransitionKeepsRecords(s, id, CancelPending, "cancellation requested", sink.first);
    if reply.Reported? {
      var s1 := Transition(s, id, CancelPending, "cancellation requested", sink.first).state;
      var reason := OrElse(reply.snapshot.reason, "cancellation result");
      TransitionMoves(s1, id, reply.snapshot.status, reason, sink.second);
      TransitionKeepsRecords(s1, id, reply.snapshot.status, reason, sink.second);
    }
  }

  /** `rehydrate` answers with exactly the ids it wrote, each as it now holds it. */
  lemma {:induction false} RehydrateAnswers(s: EngineState, ids: seq<(string, Reply)>)
    requires Rehydrate(s, ids).outcome.Ok?
    ensures var d := Rehydrate(s, ids);
            && (forall id :: id in d.outcome.value ==> Took(d.state, id, d.outcome.value[id]))
            && (forall id :: id in d.outcome.value ==> Mentioned(ids, id))
            && (forall id :: id !in d.outcome.value ==> HeldOf(d.state, id) == HeldOf(s, id))
            && (forall i :: 0 <= i < |ids| && ids[i].1.Reported? ==> ids[i].0 in d.outcome.value)
            && (forall i :: 0 <= i < |ids| ==> Strip(ids[i].0) != "" && !ids[i].1.Raised?)
    decreases |ids|
  {
    hide RehydrateOne, Strip;
    if ids != [] {
      var n := |ids| - 1;
      RehydrateAnswers(s, ids[..n]);
      RehydrateOneAnswers(Rehydrate(s, ids[..n]).state, ids[n].0, ids[n].1);
      assert forall i :: 0 <= i < n ==> ids[..n][i] == ids[i];
      assert forall id :: Mentioned(ids[..n], id) ==> Mentioned(ids, id);
      assert Mentioned(ids, ids[n].0);
      var mid, d := Rehydrate(s, ids[..n]), Rehydrate(s, ids);
      forall id | id in d.outcome.value && id != ids[n].0 ensures Took(d.state, id, d.outcome.value[id]) {
        TookIsHeld(mid.state, d.state, id, d.outcome.value[id]);
      }
      hide Took, HeldOf, Mentioned;
    }
  }

  ghost predicate Mentioned(ids: seq<(string, Reply)>, id: string) {
    exists i :: 0 <= i < |ids| && ids[i].0 == id
  }

  /** One id: skipped when neither side knows it; otherwise the report, or the
      order with the status UNKNOWN, if it can be believed. */
  lemma RehydrateOneAnswers(s: EngineState, id: string, reply: Reply)
    ensures var d := RehydrateOne(s, id, reply);
            && (d.outcome.Ok? <==>
                  && Strip(id) != "" && !reply.Raised? && (reply.Reported? ==> ContractHolds(reply.snapshot))
                  && (reply.NoRecord? && id in s.orders ==> ContractHolds(s.orders[id].(status := Unknown))))
            && (d.outcome.Ok? && d.outcome.value.None? <==> Strip(id) != "" && reply.NoRecord? && id !in s.orders)
            && (d.outcome.Ok? && d.outcome.value.Some? ==>
                  && Took(d.state, id, d.outcome.value.value)
                  && (if reply.Reported? then d.outcome.value.value == reply.snapshot
                      else d.outcome.value.value == s.orders[id].(clientOrderId := id, status := Unknown,
                        reason := "broker returned no order state during rehydration"))
                  && forall k :: k != id ==> HeldOf(d.state, k) == HeldOf(s, k))
            && (d.outcome.Err? || d.outcome.value.None? ==> d.state == s)
  {
    hide Strip;
  }

  // ------------------------------------------------------------ what is raised

  ghost predicate SinkRefuses(call: Call) {
    !call.RehydrateCall? && call.sink != HEALTHY_SINK
  }

  /** What the call asked the broker about, and the size it expects: its own
      order's, or the stored one's. */
  ghost function SizeAsked(s: EngineState, call: Call): Option<(string, real)> {
    match call
    case SubmitCall(order, _, _, _) => Some((order.clientOrderId, order.quantity))
    case RecoverCall(id, _, _) => if id in s.orders then Some((id, s.orders[id].requestedQuantity)) else None
    case _ => None
  }

  /** What has to be the case when a call other than `rehydrate` raises this. */
  ghost predicate Caused(s: EngineState, call: Call, e: Failure)
    requires !call.RehydrateCall?
  {
    match e
    case AuthorizationMissing => call.SubmitCall? && call.order.authorization.None?
    case InvalidOrder(_) => call.SubmitCall? && call.order.authorization.Some? && Validate(call.order).Err?
    case IllegalTransition(a, b) => a != b && b !in AllowedTargets(a)
    case SinkRaised => SinkRefuses(call)
    case BrokerRaised(message) => call.reply == Raised(message) && !call.SubmitCall?
    case MissingReply => call.reply.NoRecord? && (call.SubmitCall? || call.CancelCall?)
    case IdMismatch =>
      call.reply.Reported? && SizeAsked(s, call).Some?
      && call.reply.snapshot.clientOrderId != SizeAsked(s, call).value.0
    case SizeMismatch =>
      call.reply.Reported? && SizeAsked(s, call).Some?
      && call.reply.snapshot.requestedQuantity != SizeAsked(s, call).value.1
    case ContractViolated =>
      call.reply.Reported? && !ContractHolds(call.reply.snapshot) && (call.SubmitCall? || call.RecoverCall?)
    case UnknownOrder => !call.SubmitCall? && call.id !in s.orders
    case BlankId => call.RefreshCall? && Strip(call.id) == ""
    case NotCancellable =>
      call.CancelCall? && call.id in s.orders && s.orders[call.id].status in {Filled, Cancelled, RejectedBroker}
  }

  /** Every exception names its cause. */
  lemma ErrorsNameTheirCause(s: EngineState, call: Call)
    requires !call.RehydrateCall? && Step(s, call).outcome.Err?
    ensures Caused(s, call, Step(s, call).outcome.error)
  {
    match call
    case SubmitCall(_, _, _, _) => SubmitCauses(s, call);
    case RefreshCall(_, _, _) => RefreshCauses(s, call);
    case RecoverCall(_, _, _) => RecoverCauses(s, call);
    case CancelCall(_, _, _) => CancelCauses(s, call);
  }

  lemma SubmitCauses(s: EngineState, call: Call)
    requires call.SubmitCall? && Step(s, call).outcome.Err?
    ensures Caused(s, call, Step(s, call).outcome.error)
  {
    hide Transition, Validate, ContractHolds, AllowedTargets;
    TransitionsRaise();
    ValidateRaises();
  }

  lemma RefreshCauses(s: EngineState, call: Call)
    requires call.RefreshCall? && Step(s, call).outcome.Err?
    ensures Caused(s, call, Step(s, call).outcome.error)
  {
    hide Transition, Strip, AllowedTargets;
    TransitionsRaise();
  }

  lemma RecoverCauses(s: EngineState, call: Call)
    requires call.RecoverCall? && Step(s, call).outcome.Err?
    ensures Caused(s, call, Step(s, call).outcome.error)
  {
    hide Transition, ContractHolds, AllowedTargets;
    TransitionsRaise();
  }

  lemma CancelCauses(s: EngineState, call: Call)
    requires call.CancelCall? && Step(s, call).outcome.Err?
    ensures Caused(s, call, Step(s, call).outcome.error)
  {
    hide Transition, AllowedTargets;
    TransitionsRaise();
  }

  lemma TransitionsRaise()
    ensures forall s, id, target, reason, refused :: Transition(s, id, target, reason, refused).outcome.Err? ==>
              match Transition(s, id, target, reason, refused).outcome.error
              case IllegalTransition(a, b) => a != b && b !in AllowedTargets(a)
              case SinkRaised => refused
              case _ => false
  {
  }

  lemma ValidateRaises()
    ensures forall order :: Validate(order).Err? ==>
              match Validate(order).error
              case AuthorizationMissing => order.authorization.None?
              case InvalidOrder(_) => order.authorization.Some?
              case _ => false
  {
  }

  // ------------------------------------------------------------ requests and events

  /** A recorded request never changes, and every event carries its order's
      decision and purpose, or the defaults of an order without a request. */
  ghost predicate EventsCarryRequests(s: EngineState) {
    forall e :: e in s.events ==>
                  || (e.decisionId == "" && e.purpose == "ENTRY")
                  || (e.clientOrderId in s.requests && e.decisionId == s.requests[e.clientOrderId].decisionId
                      && e.purpose == s.requests[e.clientOrderId].purpose)
  }

  ghost predicate KeepsRequests(s: EngineState, after: EngineState) {
    && (forall id :: id in s.requests ==> id in after.requests && after.requests[id] == s.requests[id])
    && (EventsCarryRequests(s) ==> EventsCarryRequests(after))
  }

  lemma TransitionRequests(s: EngineState, id: string, target: OrderStatus, reason: string, refused: bool)
    ensures KeepsRequests(s, Transition(s, id, target, reason, refused).state)
  {
    hide AllowedTargets;
  }

  lemma SameEventsKeep(s: EngineState, after: EngineState)
    requires after.events == s.events && after.requests == s.requests
    ensures KeepsRequests(s, after)
  {
  }

  lemma KeepsTransitive(a: EngineState, b: EngineState, c: EngineState)
    requires KeepsRequests(a, b) && KeepsRequests(b, c)
    ensures KeepsRequests(a, c)
  {
    hide EventsCarryRequests;
  }

  lemma SubmitRequests(s: EngineState, order: OrderRequest, reply: Reply, sink: Sink, latency: real)
    ensures KeepsRequests(s, Submit(s, order, reply, sink, latency).state)
  {
    hide Transition, Validate, AfterBrokerSubmit, KeepsRequests;
    var k := order.clientOrderId;
    var s0 := if k in s.requests then s else s.(requests := s.requests[k := order]);
    SameEventsKeep(s, s);
    FirstRequestKeeps(s, order);
    var t := Transition(s0, k, Validated, "local validation passed", sink.first);
    TransitionRequests(s0, k, Validated, "local validation passed", sink.first);
    KeepsTransitive(s, s0, t.state);
    var u := Transition(t.state, k, Submitting, "broker submission started", sink.second);
    TransitionRequests(t.state, k, Submitting, "broker submission started", sink.second);
    KeepsTransitive(s, t.state, u.state);
    var sent := u.state.(submissions := u.state.submissions + [order]);
    SameEventsKeep(u.state, sent);
    KeepsTransitive(s, u.state, sent);
    BrokerRequests(sent, order, reply, sink, latency);
    KeepsTransitive(s, sent, AfterBrokerSubmit(sent, order, reply, sink, latency).state);
  }

  lemma FirstRequestKeeps(s: EngineState, order: OrderRequest)
    ensures KeepsRequests(s, if order.clientOrderId in s.requests then s
                             else s.(requests := s.requests[order.clientOrderId := order]))
  {
  }

  lemma BrokerRequests(s: EngineState, order: OrderRequest, reply: Reply, sink: Sink, latency: real)
    ensures KeepsRequests(s, AfterBrokerSubmit(s, order, reply, sink, latency).state)
  {
    hide Transition, ContractHolds, KeepsRequests;
    var after := AfterBrokerSubmit(s, order, reply, sink, latency).state;
    var target := if reply.Reported? then reply.snapshot.status else Unknown;
    var reason := if reply.Reported? then OrElse(reply.snapshot.reason, "broker acknowledged order")
                  else if reply.Raised? then UnknownSubmission(order, reply.message).reason else "";
    var t := Transition(s, order.clientOrderId, target, reason, sink.third).state;
    TransitionRequests(s, order.clientOrderId, target, reason, sink.third);
    SameEventsKeep(s, s);
    if after.events == t.events && after.requests == t.requests {
      SameEventsKeep(t, after);
      KeepsTransitive(s, t, after);
    }
  }

  lemma RefreshRequests(s: EngineState, id: string, reply: Reply, sink: Sink)
    ensures KeepsRequests(s, Refresh(s, id, reply, sink).state)
  {
    hide Transition, Blank;
    var status := if reply.Reported? then reply.snapshot.status else Unknown;
    var reason := if reply.Reported? then "broker refresh" else "broker returned no order state";
    TransitionRequests(s, id, status, reason, sink.first);
  }

  lemma RecoverRequests(s: EngineState, id: string, reply: Reply, sink: Sink)
    ensures KeepsRequests(s, RecoverUnknown(s, id, reply, sink).state)
  {
    hide Transition, ContractHolds;
    if reply.Reported? {
      TransitionRequests(s, id, reply.snapshot.status,
                         OrElse(reply.snapshot.reason, "unknown order resolved from broker state"), sink.first);
    }
  }

  lemma CancelRequests(s: EngineState, id: string, reply: Reply, sink: Sink)
    ensures KeepsRequests(s, Cancel(s, id, reply, sink).state)
  {
    hide Transition, KeepsRequests;
    var after := Cancel(s, id, reply, sink).state;
    var t := Transition(s, id, CancelPending, "cancellation requested", sink.first).state;
    TransitionRequests(s, id, CancelPending, "cancellation requested", sink.first);
    SameEventsKeep(s, s);
    var u := t;
    if reply.Reported? {
      var reason := OrElse(reply.snapshot.reason, "cancellation result");
      u := Transition(t, id, reply.snapshot.status, reason, sink.second).state;
      TransitionRequests(t, id, reply.snapshot.status, reason, sink.second);
      KeepsTransitive(s, t, u);
    }
    forall v: EngineState | v.events == after.events && v.requests == after.requests ensures KeepsRequests(v, after) {
      SameEventsKeep(v, after);
    }
    forall v: EngineState | KeepsRequests(s, v) && KeepsRequests(v, after) ensures KeepsRequests(s, after) {
      KeepsTransitive(s, v, after);
    }
    assert KeepsRequests(s, s) && KeepsRequests(s, t) && KeepsRequests(s, u);
  }

  lemma {:induction false} RehydrateRequests(s: EngineState, ids: seq<(string, Reply)>)
    ensures Rehydrate(s, ids).state.requests == s.requests
    decreases |ids|
  {
    hide Blank, ContractHolds;
    if ids != [] {
      RehydrateRequests(s, ids[..|ids| - 1]);
    }
  }

  lemma StepRequests(s: EngineState, call: Call)
    ensures KeepsRequests(s, Step(s, call).state)
  {
    hide Submit, Refresh, RecoverUnknown, Rehydrate, Cancel, KeepsRequests;
    match call {
      case SubmitCall(order, reply, sink, latency) => SubmitRequests(s, order, reply, sink, latency);
      case RefreshCall(id, reply, sink) => RefreshRequests(s, id, reply, sink);
      case RecoverCall(id, reply, sink) => RecoverRequests(s, id, reply, sink);
      case RehydrateCall(ids) =>
        RehydrateRequests(s, ids);
        RehydrateCell(s, ids, "");
        SameEventsKeep(s, Rehydrate(s, ids).state);
      case CancelCall(id, reply, sink) => CancelRequests(s, id, reply, sink);
    }
  }

  /** Over runs: the first request of an id is the one that is kept, and every
      event carries the decision and purpose of its order's request. */
  lemma {:induction false} EventsAlwaysCarryRequests(calls: seq<Call>)
    ensures EventsCarryRequests(Run(calls))
    ensures forall m, id :: 0 <= m <= |calls| && id in Run(calls[..m]).requests ==>
                              id in Run(calls).requests && Run(calls).requests[id] == Run(calls[..m]).requests[id]
    decreases |calls|
  {
    hide Step, EventsCarryRequests;
    if calls == [] {
      NoEvents();
    } else {
      var n := |calls| - 1;
      EventsAlwaysCarryRequests(calls[..n]);
      StepRequests(Run(calls[..n]), calls[n]);
      forall m, id | 0 <= m <= |calls| && id in Run(calls[..m]).requests
        ensures id in Run(calls).requests && Run(calls).requests[id] == Run(calls[..m]).requests[id]
      {
        if m <= n {
          assert calls[..n][..m] == calls[..m];
        } else {
          assert calls[..m] == calls;
        }
      }
    }
  }

  lemma NoEvents()
    ensures EventsCarryRequests(INITIAL)
  {
  }
}
