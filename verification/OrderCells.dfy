/** What one call on the engine can do to what is held about one order id. Every
    safety property of the protocol is read off these per-id facts. */
module OrderCells {
  import opened Common
  import opened Authority
  import opened OrderProtocol

  /** What the engine holds about one id. */
  datatype Cell = Cell(order: Option<OrderSnapshot>, status: Option<OrderStatus>)

  function CellOf(s: EngineState, id: string): Cell {
    Cell(if id in s.orders then Some(s.orders[id]) else None,
         if id in s.states then Some(s.states[id]) else None)
  }

  predicate Edge(a: OrderStatus, b: OrderStatus) {
    a == b || b in AllowedTargets(a)
  }

  /** The stored snapshot and the status agree. */
  predicate Agrees(c: Cell) {
    c.order.Some? && c.status == Some(c.order.value.status)
  }

  /** Only the status moved, along an edge. */
  predicate Moved(before: Cell, after: Cell) {
    after.order == before.order && before.status.Some? && after.status.Some?
      && Edge(before.status.value, after.status.value)
  }

  predicate Unclaimed(c: Cell) {
    c.order.None? && (c.status.None? || c.status.value in {Created, Validated})
  }

  predicate SubmitEffect(before: Cell, sink: Sink, after: Cell) {
    || after == before
    || (&& Unclaimed(before) && after.status.Some? && after.status.value !in {Created, RejectedLocal}
        && (after.status.value.Validated? ==> sink.first)
        && (after.order.Some? ==> Agrees(after) && !after.status.value.Validated?))
  }

  predicate RefreshEffect(before: Cell, reply: Reply, sink: Sink, after: Cell) {
    || after == before
    || (sink.first && Moved(before, after))
    || (&& Agrees(after) && (before.status.None? || Edge(before.status.value, after.status.value))
        && (after.order == ReportedOrder(reply) || after.status.value.Unknown?))
  }

  predicate RecoverEffect(before: Cell, reply: Reply, sink: Sink, after: Cell) {
    || after == before
    || (sink.first && Moved(before, after))
    || (Agrees(after) && after.order == ReportedOrder(reply))
  }

  predicate RehydrateEffect(before: Cell, ids: seq<(string, Reply)>, after: Cell) {
    || after == before
    || (&& Agrees(after)
        && (after.status.value.Unknown? || exists i :: 0 <= i < |ids| && after.order == ReportedOrder(ids[i].1)))
  }

  /** A cancel that was journaled but never answered with a legal status. */
  predicate CancelUnanswered(reply: Reply) {
    reply.Reported? ==> reply.snapshot.status !in AllowedTargets(CancelPending) && !reply.snapshot.status.CancelPending?
  }

  predicate CancelEffect(before: Cell, reply: Reply, sink: Sink, after: Cell) {
    || after == before
    || ((sink.first || sink.second) && after.order == before.order && before.status.Some? && after.status.Some?
        && before.status.value !in LOCAL_STATUSES && after.status.value !in LOCAL_STATUSES + {Submitting})
    || (CancelUnanswered(reply) && Moved(before, after) && after.status.value.CancelPending?)
    || (Agrees(after) && after.order == ReportedOrder(reply) && before.order.Some?)
  }

  function ReportedOrder(reply: Reply): Option<OrderSnapshot> {
    if reply.Reported? then Some(reply.snapshot) else None
  }

  /** What a call can do to the cell of `id`. */
  predicate Effect(before: Cell, call: Call, id: string, after: Cell) {
    match call
    case SubmitCall(order, _, sink, _) => if order.clientOrderId == id then SubmitEffect(before, sink, after)
      else after == before
    case RefreshCall(k, reply, sink) => if k == id then RefreshEffect(before, reply, sink, after) else after == before
    case RecoverCall(k, reply, sink) => if k == id then RecoverEffect(before, reply, sink, after) else after == before
    case RehydrateCall(ids) => RehydrateEffect(before, ids, after)
    case CancelCall(k, reply, sink) => if k == id then CancelEffect(before, reply, sink, after) else after == before
  }

  lemma TransitionCell(s: EngineState, k: string, target: OrderStatus, reason: string, raises: bool, id: string)
    ensures var t := Transition(s, k, target, reason, raises);
            var before, after := CellOf(s, id), CellOf(t.state, id);
            && t.state.submissions == s.submissions
            && after.order == before.order
            && (k != id ==> after == before)
            && (k == id && t.outcome.Ok? ==> after.status == Some(target))
            && (k == id && t.outcome.Ok? ==> before.status.None? || Edge(before.status.value, target))
            && (k == id && t.outcome.Err? ==>
                  || (after == before && before.status.Some? && !Edge(before.status.value, target))
                  || (raises && after.status == Some(target)
                     && (before.status.None? || Edge(before.status.value, target))))
            && (k == id && before.status == Some(target) ==> t.outcome.Ok?)
            && (k == id && t.outcome.Ok? && before.status != Some(target) ==> !raises)
  {
  }

  lemma AfterBrokerSubmitCell(s: EngineState, order: OrderRequest, reply: Reply, sink: Sink, latency: real, id: string)
    requires CellOf(s, order.clientOrderId) == Cell(None, Some(Submitting))
    ensures var before, after := CellOf(s, id), CellOf(AfterBrokerSubmit(s, order, reply, sink, latency).state, id);
            && AfterBrokerSubmit(s, order, reply, sink, latency).state.submissions == s.submissions
            && (order.clientOrderId != id ==> after == before)
            && (order.clientOrderId == id ==>
                  && after.status.Some? && after.status.value !in LOCAL_STATUSES
                  && (after.order.Some? ==> Agrees(after)))
  {
    hide Transition, ContractHolds, AllowedTargets;
    NoWayBackFromSubmitting();
    if reply.Raised? {
      TransitionCell(s, order.clientOrderId, Unknown, UnknownSubmission(order, reply.message).reason, sink.third, id);
    } else if reply.Reported? {
      ReportedSubmitCell(s, order, reply.snapshot, sink, latency, id);
    }
  }

  /** No purely local status follows SUBMITTING. */
  lemma NoWayBackFromSubmitting()
    ensures forall status :: Edge(Submitting, status) ==> status !in LOCAL_STATUSES
    ensures Edge(Submitting, Unknown)
  {
  }

  lemma ReportedSubmitCell(s: EngineState, order: OrderRequest, report: OrderSnapshot, sink: Sink, latency: real,
      id: string)
    requires CellOf(s, order.clientOrderId) == Cell(None, Some(Submitting))
    ensures var before := CellOf(s, id);
            var after := CellOf(AfterBrokerSubmit(s, order, Reported(report), sink, latency).state, id);
            && AfterBrokerSubmit(s, order, Reported(report), sink, latency).state.submissions == s.submissions
            && (order.clientOrderId != id ==> after == before)
            && (order.clientOrderId == id ==>
                  && after.status.Some? && after.status.value !in LOCAL_STATUSES
                  && (after.order.Some? ==> Agrees(after)))
  {
    hide Transition, ContractHolds, AllowedTargets;
    NoWayBackFromSubmitting();
    TransitionCell(s, order.clientOrderId, report.status, OrElse(report.reason, "broker acknowledged order"),
                   sink.third, id);
  }

  /** The claim on an id succeeds exactly when the id is unclaimed and the sink
      takes both events; a failed claim may have moved the status. */
  lemma BeginSubmissionCell(s: EngineState, k: string, sink: Sink, id: string)
    requires k !in s.orders
    ensures var b := BeginSubmission(s, k, sink);
            var before, after := CellOf(s, id), CellOf(b.state, id);
            && b.state.submissions == s.submissions
            && (k != id ==> after == before)
            && (b.outcome.Ok? <==> && Unclaimed(CellOf(s, k)) && !sink.second
                                   && (sink.first ==> CellOf(s, k).status == Some(Validated)))
            && (k == id && b.outcome.Ok? ==> after == Cell(None, Some(Submitting)))
            && (k == id && b.outcome.Err? ==> SubmitEffect(before, sink, after))
  {
    hide Transition;
    var t := Transition(s, k, Validated, "local validation passed", sink.first);
    TransitionCell(s, k, Validated, "local validation passed", sink.first, k);
    TransitionCell(s, k, Validated, "local validation passed", sink.first, id);
    if t.outcome.Ok? {
      TransitionCell(t.state, k, Submitting, "broker submission started", sink.second, k);
      TransitionCell(t.state, k, Submitting, "broker submission started", sink.second, id);
    }
  }

  /** When `submit` gets as far as the broker call. */
  predicate SubmitReaches(s: EngineState, order: OrderRequest, sink: Sink) {
    && Validate(order).Ok?
    && Unclaimed(CellOf(s, order.clientOrderId))
    && (sink.first ==> CellOf(s, order.clientOrderId).status == Some(Validated))
    && !sink.second
  }

  /** `submit` reaches the broker exactly when the order repeats its own
      authorization, its id is unclaimed, and the sink takes the events that
      precede the broker call. */
  lemma SubmitCell(s: EngineState, order: OrderRequest, reply: Reply, sink: Sink, latency: real, id: string)
    ensures var k, after := order.clientOrderId, Submit(s, order, reply, sink, latency).state;
            && after.submissions == (if SubmitReaches(s, order, sink) then s.submissions + [order] else s.submissions)
            && (k == id && SubmitReaches(s, order, sink) ==> !Unclaimed(CellOf(after, id)))
            && (k == id ==> SubmitEffect(CellOf(s, id), sink, CellOf(after, id)))
            && (k != id ==> CellOf(after, id) == CellOf(s, id))
  {
    hide BeginSubmission, AfterBrokerSubmit, Validate, AllowedTargets;
    var k := order.clientOrderId;
    if Validate(order).Ok? && k !in s.orders {
      var s0 := if k in s.requests then s else s.(requests := s.requests[k := order]);
      assert CellOf(s0, id) == CellOf(s, id) && CellOf(s0, k) == CellOf(s, k);
      var begun := BeginSubmission(s0, k, sink);
      BeginSubmissionCell(s0, k, sink, k);
      BeginSubmissionCell(s0, k, sink, id);
      if begun.outcome.Ok? {
        AfterBrokerSubmitCell(begun.state.(submissions := begun.state.submissions + [order]), order, reply, sink,
          latency, id);
      }
    }
  }

  lemma RefreshCell(s: EngineState, k: string, reply: Reply, sink: Sink, id: string)
    requires k in s.orders ==> k in s.states
    ensures var after := Refresh(s, k, reply, sink).state;
            && after.submissions == s.submissions
            && (k == id ==> RefreshEffect(CellOf(s, id), reply, sink, CellOf(after, id)))
            && (k != id ==> CellOf(after, id) == CellOf(s, id))
  {
    hide Transition;
    if reply.NoRecord? {
      TransitionCell(s, k, Unknown, "broker returned no order state", sink.first, id);
    } else if reply.Reported? {
      TransitionCell(s, k, reply.snapshot.status, "broker refresh", sink.first, id);
    }
  }

  lemma RecoverCell(s: EngineState, k: string, reply: Reply, sink: Sink, id: string)
    requires k in s.orders ==> k in s.states
    ensures var after := RecoverUnknown(s, k, reply, sink).state;
            && after.submissions == s.submissions
            && (k == id ==> RecoverEffect(CellOf(s, id), reply, sink, CellOf(after, id)))
            && (k != id ==> CellOf(after, id) == CellOf(s, id))
  {
    hide Transition;
    if reply.Reported? {
      TransitionCell(s, k, reply.snapshot.status,
        OrElse(reply.snapshot.reason, "unknown order resolved from broker state"),
                     sink.first, id);
    }
  }

  lemma CancelCell(s: EngineState, k: string, reply: Reply, sink: Sink, id: string)
    requires k in s.orders ==> k in s.states
    ensures var after := Cancel(s, k, reply, sink).state;
            && after.submissions == s.submissions
            && (k == id ==> CancelEffect(CellOf(s, id), reply, sink, CellOf(after, id)))
            && (k != id ==> CellOf(after, id) == CellOf(s, id))
  {
    hide Transition;
    TransitionCell(s, k, CancelPending, "cancellation requested", sink.first, id);
    TransitionCell(s, k, CancelPending, "cancellation requested", sink.first, k);
    if reply.Reported? {
      var s1 := Transition(s, k, CancelPending, "cancellation requested", sink.first).state;
      TransitionCell(s1, k, reply.snapshot.status, OrElse(reply.snapshot.reason, "cancellation result"), sink.second,
        id);
    }
  }

  lemma RehydrateOneCell(s: EngineState, k: string, reply: Reply, id: string)
    ensures var after := RehydrateOne(s, k, reply).state;
            && after.submissions == s.submissions
            && after.events == s.events
            && RehydrateEffect(CellOf(s, id), [(k, reply)], CellOf(after, id))
  {
    var after := RehydrateOne(s, k, reply).state;
    if CellOf(after, id) != CellOf(s, id) && reply.Reported? {
      assert [(k, reply)][0].1 == reply;
    }
  }

  lemma {:induction false} RehydrateCell(s: EngineState, ids: seq<(string, Reply)>, id: string)
    ensures var after := Rehydrate(s, ids).state;
            && after.submissions == s.submissions
            && after.events == s.events
            && RehydrateEffect(CellOf(s, id), ids, CellOf(after, id))
    decreases |ids|
  {
    hide RehydrateOne;
    if ids != [] {
      var n := |ids| - 1;
      RehydrateCell(s, ids[..n], id);
      var mid := Rehydrate(s, ids[..n]).state;
      RehydrateOneCell(mid, ids[n].0, ids[n].1, id);
      assert forall i :: 0 <= i < n ==> ids[..n][i] == ids[i];
      assert [(ids[n].0, ids[n].1)][0] == ids[n];
    }
  }

  /** Every call does to every id what its effect says. */
  lemma StepCell(s: EngineState, call: Call, id: string)
    requires forall k :: k in s.orders ==> k in s.states
    ensures Effect(CellOf(s, id), call, id, CellOf(Step(s, call).state, id))
    ensures !call.SubmitCall? ==> Step(s, call).state.submissions == s.submissions
  {
    hide Submit, Refresh, RecoverUnknown, Rehydrate, Cancel, SubmitEffect, RefreshEffect, RecoverEffect,
      RehydrateEffect, CancelEffect;
    match call {
      case SubmitCall(order, reply, sink, latency) => SubmitCell(s, order, reply, sink, latency, id);
      case RefreshCall(k, reply, sink) => RefreshCell(s, k, reply, sink, id);
      case RecoverCall(k, reply, sink) => RecoverCell(s, k, reply, sink, id);
      case RehydrateCall(ids) => RehydrateCell(s, ids, id);
      case CancelCall(k, reply, sink) => CancelCell(s, k, reply, sink, id);
    }
  }
}
