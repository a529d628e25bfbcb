/** Whether a stored snapshot is about the order it is stored under: it names
    that order's id and carries that order's size. `submit` and
    `recover_unknown` check a report for this, the other calls do not. */
module OrderNames {
  import opened Common
  import opened Authority
  import opened OrderProtocol
  import opened OrderCells
  import opened OrderSafety

  /** The stored snapshot names the id it is stored under. */
  predicate Named(s: EngineState, id: string) {
    id in s.orders ==> s.orders[id].clientOrderId == id
  }

  /** The stored snapshot has the size of the recorded request, if there is one. */
  predicate Sized(s: EngineState, id: string) {
    id in s.orders && id in s.requests ==> s.orders[id].requestedQuantity == s.requests[id].quantity
  }

  predicate Faithful(s: EngineState, id: string) {
    Named(s, id) && Sized(s, id)
  }

  /** The status of `id` can be moved to `target`, and the sink takes the event. */
  predicate Moves(s: EngineState, id: string, target: OrderStatus, refused: bool) {
    if id !in s.states then !refused
    else s.states[id] == target || (target in AllowedTargets(s.states[id]) && !refused)
  }

  /** `refresh` stores a report that is about another order. */
  predicate RefreshMisfiles(s: EngineState, id: string, reply: Reply, sink: Sink) {
    && !Blank(id) && reply.Reported? && (id in s.states ==> Moves(s, id, reply.snapshot.status, sink.first))
    && AboutAnother(s, id, reply.snapshot)
  }

  /** The report's two fields: another id, or another size than the request's. */
  predicate AboutAnother(s: EngineState, id: string, report: OrderSnapshot) {
    report.clientOrderId != id || (id in s.requests && report.requestedQuantity != s.requests[id].quantity)
  }

  /** `cancel` stores one: both of its status changes are taken. */
  predicate CancelMisfiles(s: EngineState, id: string, reply: Reply, sink: Sink) {
    && id in s.orders && s.orders[id].status !in {Filled, Cancelled, RejectedBroker} && reply.Reported?
    && Moves(s, id, CancelPending, sink.first)
    && (reply.snapshot.status.CancelPending?
       || (reply.snapshot.status in AllowedTargets(CancelPending) && !sink.second))
    && AboutAnother(s, id, reply.snapshot)
  }

  /** `submit` gets an order of a new size under an id it has already met: an
      order it knows without a request, or a request whose order it never got
      to store. */
  predicate SubmitMisfiles(s: EngineState, order: OrderRequest, reply: Reply, sink: Sink) {
    var id := order.clientOrderId;
    && Validate(order).Ok?
    && if id in s.orders then id !in s.requests && s.orders[id].requestedQuantity != order.quantity
       else id in s.requests && s.requests[id].quantity != order.quantity && SubmitStores(s, order, reply, sink)
  }

  /** The part of `SubmitStores` that the broker's answer decides. */
  predicate AnswerStores(order: OrderRequest, reply: Reply, sink: Sink) {
    match reply
    case NoRecord => false
    case Raised(_) => !sink.third
    case Reported(report) =>
      && report.clientOrderId == order.clientOrderId && report.requestedQuantity == order.quantity
      && ContractHolds(report)
      && (report.status.Submitting? || (report.status in AllowedTargets(Submitting) && !sink.third))
  }

  /** `submit` stores a snapshot for a new order. */
  predicate SubmitStores(s: EngineState, order: OrderRequest, reply: Reply, sink: Sink) {
    SubmitReaches(s, order, sink) && AnswerStores(order, reply, sink)
  }

  /** The id and the size that the ids, in order, leave in the snapshot of one
      of them; None where nothing is written. The UNKNOWN copies of `rehydrate`
      name the id and keep the size. */
  datatype Left = Left(name: Option<string>, size: Option<real>)

  function RehydrateLeaves(s: EngineState, ids: seq<(string, Reply)>, id: string): Left {
    if ids == [] then Left(None, None)
    else
      var n := |ids| - 1;
      var earlier, before := Rehydrate(s, ids[..n]), RehydrateLeaves(s, ids[..n], id);
      if ids[n].0 != id || Blank(id) || earlier.outcome.Err? then before
      else
        match ids[n].1
        case Raised(_) => before
        case Reported(report) =>
          if ContractHolds(report) then Left(Some(report.clientOrderId), Some(report.requestedQuantity)) else before
        case NoRecord =>
          if id in earlier.state.orders && ContractHolds(earlier.state.orders[id].(status := Unknown))
          then before.(name := Some(id))
          else before
  }

  predicate RehydrateMisfiles(s: EngineState, ids: seq<(string, Reply)>, id: string) {
    var left := RehydrateLeaves(s, ids, id);
    || (left.name.Some? && left.name.value != id)
    || (left.size.Some? && id in s.requests && left.size.value != s.requests[id].quantity)
  }

  /** What makes a call store something about another order under `id`. */
  predicate Misfiles(s: EngineState, call: Call, id: string) {
    match call
    case SubmitCall(order, reply, sink, _) => order.clientOrderId == id && SubmitMisfiles(s, order, reply, sink)
    case RefreshCall(k, reply, sink) => k == id && RefreshMisfiles(s, id, reply, sink)
    case RecoverCall(_, _, _) => false
    case RehydrateCall(ids) => RehydrateMisfiles(s, ids, id)
    case CancelCall(k, reply, sink) => k == id && CancelMisfiles(s, id, reply, sink)
  }

  /** A transition moves nothing but the status, and succeeds exactly as said. */
  lemma TransitionMoves(s: EngineState, id: string, target: OrderStatus, reason: string, refused: bool)
    ensures var t := Transition(s, id, target, reason, refused);
            && t.state.orders == s.orders && t.state.requests == s.requests
            && (t.outcome.Ok? <==> Moves(s, id, target, refused))
            && (t.outcome.Ok? ==> id in t.state.states && t.state.states[id] == target)
            && forall k :: k != id ==> (k in t.state.states <==> k in s.states)
  {
  }

  lemma RefreshFaithful(s: EngineState, k: string, reply: Reply, sink: Sink, id: string)
    requires Faithful(s, id) && (k in s.orders ==> k in s.states)
    ensures Faithful(Refresh(s, k, reply, sink).state, id) <==> !Misfiles(s, RefreshCall(k, reply, sink), id)
  {
    hide Transition, Blank;
    TransitionMoves(s, k, Unknown, "broker returned no order state", sink.first);
    if reply.Reported? {
      TransitionMoves(s, k, reply.snapshot.status, "broker refresh", sink.first);
    }
  }

  lemma RecoverFaithful(s: EngineState, k: string, reply: Reply, sink: Sink, id: string)
    requires Faithful(s, id)
    ensures Faithful(RecoverUnknown(s, k, reply, sink).state, id)
  {
    hide Transition, ContractHolds;
    if reply.Reported? {
      TransitionMoves(s, k, reply.snapshot.status,
                      OrElse(reply.snapshot.reason, "unknown order resolved from broker state"), sink.first);
    }
  }

  lemma CancelFaithful(s: EngineState, k: string, reply: Reply, sink: Sink, id: string)
    requires Faithful(s, id) && (k in s.orders ==> k in s.states)
    ensures Faithful(Cancel(s, k, reply, sink).state, id) <==> !Misfiles(s, CancelCall(k, reply, sink), id)
  {
    hide Transition;
    TransitionMoves(s, k, CancelPending, "cancellation requested", sink.first);
    if reply.Reported? {
      var s1 := Transition(s, k, CancelPending, "cancellation requested", sink.first).state;
      TransitionMoves(s1, k, reply.snapshot.status, OrElse(reply.snapshot.reason, "cancellation result"), sink.second);
    }
  }

  /** What a snapshot says about its order. */
  function Label(s: EngineState, id: string): Option<(string, real)> {
    if id in s.orders then Some((s.orders[id].clientOrderId, s.orders[id].requestedQuantity)) else None
  }

  lemma RehydrateOneLabels(s: EngineState, k: string, reply: Reply, id: string)
    ensures var after := RehydrateOne(s, k, reply).state;
            && after.requests == s.requests
            && Label(after, id) ==
               if k != id || Blank(id) || reply.Raised? then Label(s, id)
               else if reply.Reported? then
                 if ContractHolds(reply.snapshot)
                   then Some((reply.snapshot.clientOrderId, reply.snapshot.requestedQuantity))
                 else Label(s, id)
               else if id in s.orders && ContractHolds(s.orders[id].(status := Unknown)) then
                 Some((id, s.orders[id].requestedQuantity))
               else Label(s, id)
  {
    hide Blank;
  }

  lemma {:induction false} RehydrateLabels(s: EngineState, ids: seq<(string, Reply)>, id: string)
    ensures var after, left := Rehydrate(s, ids).state, RehydrateLeaves(s, ids, id);
            && after.requests == s.requests
            && (left.name.None? ==> left.size.None? && Label(after, id) == Label(s, id))
            && (left.name.Some? ==>
                  && Label(after, id).Some? && Label(after, id).value.0 == left.name.value
                  && (if left.size.Some? then Label(after, id).value.1 == left.size.value
                      else Label(s, id).Some? && Label(after, id).value.1 == Label(s, id).value.1))
    decreases |ids|
  {
    hide RehydrateOne, Blank, ContractHolds;
    if ids != [] {
      var n := |ids| - 1;
      RehydrateLabels(s, ids[..n], id);
      RehydrateOneLabels(Rehydrate(s, ids[..n]).state, ids[n].0, ids[n].1, id);
    }
  }

  lemma RehydrateFaithful(s: EngineState, ids: seq<(string, Reply)>, id: string)
    requires Faithful(s, id)
    ensures Faithful(Rehydrate(s, ids).state, id) <==> !Misfiles(s, RehydrateCall(ids), id)
  {
    RehydrateLabels(s, ids, id);
    hide Rehydrate, RehydrateLeaves;
  }

  /** What `submit` does to the order and the request of its own id. */
  lemma SubmitRecords(s: EngineState, order: OrderRequest, reply: Reply, sink: Sink, latency: real)
    requires Validate(order).Ok?
    ensures var k, after := order.clientOrderId, Submit(s, order, reply, sink, latency).state;
            && after.requests == (if k in s.requests then s.requests else s.requests[k := order])
            && (k in s.orders ==> after.orders == s.orders)
            && (k !in s.orders && !SubmitStores(s, order, reply, sink) ==> after.orders == s.orders)
            && (k !in s.orders && SubmitStores(s, order, reply, sink) ==>
                  Label(after, k) == Some((k, order.quantity)) && after.orders == s.orders[k := after.orders[k]])
  {
    hide BeginSubmission, AfterBrokerSubmit, Validate, AllowedTargets;
    var k := order.clientOrderId;
    if k !in s.orders {
      var s0 := if k in s.requests then s else s.(requests := s.requests[k := order]);
      var begun := BeginSubmission(s0, k, sink);
      BeginSubmissionCell(s0, k, sink, k);
      assert CellOf(s0, k) == CellOf(s, k);
      BeginSubmissionRecords(s0, k, sink);
      if begun.outcome.Ok? {
        assert begun.state.states[k] == Submitting;
        AfterBrokerSubmitRecords(begun.state.(submissions := begun.state.submissions + [order]), order, reply, sink,
          latency);
      }
    }
  }

  lemma BeginSubmissionRecords(s: EngineState, k: string, sink: Sink)
    ensures var b := BeginSubmission(s, k, sink).state; b.orders == s.orders && b.requests == s.requests
  {
    hide Transition;
    TransitionMoves(s, k, Validated, "local validation passed", sink.first);
    TransitionMoves(Transition(s, k, Validated, "local validation passed", sink.first).state, k, Submitting,
                    "broker submission started", sink.second);
  }

  lemma AfterBrokerSubmitRecords(s: EngineState, order: OrderRequest, reply: Reply, sink: Sink, latency: real)
    requires order.clientOrderId in s.states && s.states[order.clientOrderId] == Submitting
    ensures var k, after := order.clientOrderId, AfterBrokerSubmit(s, order, reply, sink, latency).state;
            && after.requests == s.requests
            && (!AnswerStores(order, reply, sink) ==> after.orders == s.orders)
            && (AnswerStores(order, reply, sink) ==>
                  Label(after, k) == Some((k, order.quantity)) && after.orders == s.orders[k := after.orders[k]])
  {
    hide Transition, ContractHolds;
    var k := order.clientOrderId;
    if reply.Raised? {
      TransitionMoves(s, k, Unknown, UnknownSubmission(order, reply.message).reason, sink.third);
      assert Unknown in AllowedTargets(Submitting);
    } else if reply.Reported? {
      TransitionMoves(s, k, reply.snapshot.status, OrElse(reply.snapshot.reason, "broker acknowledged order"),
        sink.third);
    }
  }

  lemma SubmitFaithful(s: EngineState, order: OrderRequest, reply: Reply, sink: Sink, latency: real, id: string)
    requires Faithful(s, id)
    ensures Faithful(Submit(s, order, reply, sink, latency).state, id)
            <==> !Misfiles(s, SubmitCall(order, reply, sink, latency), id)
  {
    if Validate(order).Ok? {
      SubmitRecords(s, order, reply, sink, latency);
      hide Submit, SubmitStores, Validate;
    }
  }

  /** A call makes a stored snapshot say something about another order exactly
      when its guard holds: for a report that is stored, the report's two
      fields; for `submit`, a new size under an id already met. */
  lemma SnapshotsAreMisfiledExactlyWhen(s: EngineState, call: Call, id: string)
    requires Tracked(s) && Faithful(s, id)
    ensures Faithful(Step(s, call).state, id) <==> !Misfiles(s, call, id)
  {
    hide Submit, Refresh, RecoverUnknown, Rehydrate, Cancel, Faithful;
    hide SubmitMisfiles, RefreshMisfiles, CancelMisfiles, RehydrateMisfiles;
    match call {
      case SubmitCall(order, reply, sink, latency) => SubmitFaithful(s, order, reply, sink, latency, id);
      case RefreshCall(k, reply, sink) => RefreshFaithful(s, k, reply, sink, id);
      case RecoverCall(k, reply, sink) => RecoverFaithful(s, k, reply, sink, id);
      case RehydrateCall(ids) => RehydrateFaithful(s, ids, id);
      case CancelCall(k, reply, sink) => CancelFaithful(s, k, reply, sink, id);
    }
  }

  /** Over runs: what is stored under an id names it and carries its size at
      every point exactly when no call of the run meets its guard. */
  lemma AlwaysFaithfulExactlyWhen(calls: seq<Call>, id: string)
    ensures AlwaysHolds(calls, s => Faithful(s, id))
            <==> NeverLoses(calls, (s, call) => Misfiles(s, call, id))
  {
    var holds, loses := s => Faithful(s, id), (s, call) => Misfiles(s, call, id);
    forall s, call | Tracked(s) && holds(s) ensures holds(Step(s, call).state) <==> !loses(s, call) {
      SnapshotsAreMisfiledExactlyWhen(s, call, id);
    }
    hide Step, Faithful, Misfiles;
    AlwaysExactlyWhen(calls, holds, loses);
  }

  /** Any snapshot at all can be stored under any new id by one `refresh`. */
  lemma RefreshStoresAnything(id: string, report: OrderSnapshot)
    requires !Blank(id)
    ensures var s := Run([RefreshCall(id, Reported(report), HEALTHY_SINK)]);
            id in s.orders && s.orders[id] == report
  {
    var calls := [RefreshCall(id, Reported(report), HEALTHY_SINK)];
    assert calls[..0] == [];
    hide Blank;
  }
}
