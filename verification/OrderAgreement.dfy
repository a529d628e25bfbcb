/** When the engine's two records of an order drift apart: the status that its
    transitions move, and the status inside the stored snapshot. */
module OrderAgreement {
  import opened Common
  import opened OrderProtocol
  import opened OrderCells
  import opened OrderSafety

  /** Nothing is stored about the order, or the two records agree. */
  predicate Settled(c: Cell) {
    c.order.Some? ==> Agrees(c)
  }

  /** The event of a change to `target` is recorded, and then refused by the sink. */
  predicate RefusedChange(current: OrderStatus, target: OrderStatus, refused: bool) {
    refused && target != current && target in AllowedTargets(current)
  }

  /** `refresh` loses the agreement: the snapshot it could not store any more
      has a new status. */
  predicate RefreshLoses(current: OrderStatus, id: string, reply: Reply, sink: Sink) {
    && !Blank(id) && !reply.Raised?
    && RefusedChange(current, if reply.Reported? then reply.snapshot.status else Unknown, sink.first)
  }

  /** `recover_unknown` loses it: the same, for a report that passes its checks. */
  predicate RecoverLoses(prior: OrderSnapshot, id: string, reply: Reply, sink: Sink) {
    && prior.status.Unknown? && reply.Reported?
    && reply.snapshot.clientOrderId == id && reply.snapshot.requestedQuantity == prior.requestedQuantity
    && ContractHolds(reply.snapshot)
    && RefusedChange(Unknown, reply.snapshot.status, sink.first)
  }

  /** `cancel` loses it: CANCEL_PENDING was recorded or already held, and the
      answer that should follow is refused by the sink, illegal or missing. An
      UNKNOWN order whose answer is UNKNOWN again agrees even when that last
      event is refused. */
  predicate CancelLoses(current: OrderStatus, reply: Reply, sink: Sink) {
    && current !in {Filled, Cancelled, RejectedBroker} && Edge(current, CancelPending)
    && if !current.CancelPending? && sink.first then true
       else if !reply.Reported? then !current.CancelPending?
       else
         var answer := reply.snapshot.status;
         !answer.CancelPending?
         && if answer in AllowedTargets(CancelPending) then sink.second && answer != current
            else !current.CancelPending?
  }

  /** What makes a call lose the agreement of one order. */
  predicate Loses(c: Cell, call: Call, id: string) {
    c.order.Some? && c.status.Some? &&
    match call
    case SubmitCall(_, _, _, _) => false
    case RefreshCall(k, reply, sink) => k == id && RefreshLoses(c.status.value, id, reply, sink)
    case RecoverCall(k, reply, sink) => k == id && RecoverLoses(c.order.value, id, reply, sink)
    case RehydrateCall(_) => false
    case CancelCall(k, reply, sink) => k == id && CancelLoses(c.status.value, reply, sink)
  }

  lemma RefreshSettles(s: EngineState, id: string, reply: Reply, sink: Sink)
    requires Settled(CellOf(s, id))
    ensures Settled(CellOf(Refresh(s, id, reply, sink).state, id))
            <==> !Loses(CellOf(s, id), RefreshCall(id, reply, sink), id)
  {
    hide Blank;
  }

  lemma RecoverSettles(s: EngineState, id: string, reply: Reply, sink: Sink)
    requires Settled(CellOf(s, id))
    ensures Settled(CellOf(RecoverUnknown(s, id, reply, sink).state, id))
            <==> !Loses(CellOf(s, id), RecoverCall(id, reply, sink), id)
  {
    hide ContractHolds, Blank;
  }

  lemma CancelSettles(s: EngineState, id: string, reply: Reply, sink: Sink)
    requires Settled(CellOf(s, id))
    ensures Settled(CellOf(Cancel(s, id, reply, sink).state, id))
            <==> !Loses(CellOf(s, id), CancelCall(id, reply, sink), id)
  {
    hide Transition, AllowedTargets;
    CancelEdges();
    TransitionCell(s, id, CancelPending, "cancellation requested", sink.first, id);
    if reply.Reported? {
      var s1 := Transition(s, id, CancelPending, "cancellation requested", sink.first).state;
      TransitionCell(s1, id, reply.snapshot.status, OrElse(reply.snapshot.reason, "cancellation result"), sink.second,
        id);
    }
  }

  lemma CancelEdges()
    ensures CancelPending !in AllowedTargets(CancelPending)
  {
  }

  /** A call loses the agreement of an order exactly when its guard says so:
      always the sink refusing the event of a real change, or a cancel that is
      left without a legal answer. */
  lemma AgreementIsLostExactlyWhen(s: EngineState, call: Call, id: string)
    requires Tracked(s) && Settled(CellOf(s, id))
    ensures Settled(CellOf(Step(s, call).state, id)) <==> !Loses(CellOf(s, id), call, id)
  {
    StepCell(s, call, id);
    hide Submit, Rehydrate, Cancel, Refresh, RecoverUnknown;
    match call {
      case SubmitCall(_, _, _, _) =>
      case RefreshCall(k, reply, sink) => RefreshSettles(s, id, reply, sink);
      case RecoverCall(k, reply, sink) => RecoverSettles(s, id, reply, sink);
      case RehydrateCall(_) =>
      case CancelCall(k, reply, sink) => CancelSettles(s, id, reply, sink);
    }
  }

  /** Over runs: an order agrees at every point of a run exactly when no call of
      the run meets its guard. */
  lemma AlwaysSettledExactlyWhen(calls: seq<Call>, id: string)
    ensures AlwaysHolds(calls, s => Settled(CellOf(s, id)))
            <==> NeverLoses(calls, (s, call) => Loses(CellOf(s, id), call, id))
  {
    var holds, loses := s => Settled(CellOf(s, id)), (s, call) => Loses(CellOf(s, id), call, id);
    forall s, call | Tracked(s) && holds(s) ensures holds(Step(s, call).state) <==> !loses(s, call) {
      AgreementIsLostExactlyWhen(s, call, id);
    }
    hide Step, Settled, Loses;
    AlwaysExactlyWhen(calls, holds, loses);
  }

  /** A sink that raises breaks the agreement: the status has moved but the
      snapshot that moved it was never stored. */
  lemma RaisingSinkBreaksAgreement(open: OrderSnapshot, filled: OrderSnapshot)
    requires open.status.Open? && filled.status.Filled?
    requires !Blank(open.clientOrderId)
    ensures var id := open.clientOrderId;
            var calls := [RefreshCall(id, Reported(open), HEALTHY_SINK),
                          RefreshCall(id, Reported(filled), HEALTHY_SINK.(first := true))];
            CellOf(Run(calls), id) == Cell(Some(open), Some(Filled))
  {
    var id := open.clientOrderId;
    var first, second := RefreshCall(id, Reported(open), HEALTHY_SINK),
      RefreshCall(id, Reported(filled), HEALTHY_SINK.(first := true));
    assert [first, second][..1] == [first] && [first][..0] == [];
    assert CellOf(Run([first]), id) == Cell(Some(open), Some(Open));
  }
}
