/** The execution engine as an object that updates its dictionaries and its
    event list in place. Each method is proved to do, step by step, what the
    protocol function of the same name says; the ghost log records every order
    handed to the broker. */
module OrderEngine {
  import opened Common
  import opened Authority
  import opened OrderProtocol

  class ExecutionEngine {
    var orders: map<string, OrderSnapshot>
    var requests: map<string, OrderRequest>
    var fills: map<string, seq<Fill>>
    var states: map<string, OrderStatus>
    var events: seq<Event>
    ghost var submissions: seq<OrderRequest>

    ghost function View(): EngineState
      reads this
    {
      EngineState(orders, requests, fills, states, events, submissions)
    }

    constructor ()
      ensures View() == INITIAL
    {
      orders, requests, fills, states, events := map[], map[], map[], map[], [];
      submissions := [];
    }

    method JournalTransition(id: string, target: OrderStatus, reason: string,
        sinkRaises: bool) returns (out: Outcome<()>)
      modifies this
      ensures Done(View(), out) == Transition(old(View()), id, target, reason, sinkRaises)
    {
      var current := None;
      if id in states {
        current := Some(states[id]);
      }
      if current == Some(target) {
        return Ok(());
      }
      if current.Some? && target !in AllowedTargets(current.value) {
        return Err(IllegalTransition(current.value, target));
      }
      states := states[id := target];
      var decisionId, purpose := "", "ENTRY";
      if id in requests {
        decisionId, purpose := requests[id].decisionId, requests[id].purpose;
      }
      events := events + [Event(id, decisionId, purpose, current, target, reason)];
      if sinkRaises {
        return Err(SinkRaised);
      }
      return Ok(());
    }

    method KeepSnapshot(id: string, snapshot: OrderSnapshot)
      modifies this
      ensures View() == Store(old(View()), id, snapshot)
    {
      orders := orders[id := snapshot];
      fills := fills[id := snapshot.fills];
    }

    method SubmitOrder(order: OrderRequest, reply: Reply, sink: Sink,
        latency: real) returns (out: Outcome<ExecutionResult>)
      modifies this
      ensures Done(View(), out) == Submit(old(View()), order, reply, sink, latency)
    {
      var checked := Validate(order);
      if checked.Err? {
        return Err(checked.error);
      }
      var id := order.clientOrderId;
      if id !in requests {
        requests := requests[id := order];
      }
      if id in orders {
        return Ok(ExecutionResult(order, orders[id], Accepted(orders[id].status), 0.0, None));
      }
      var moved := JournalTransition(id, Validated, "local validation passed", sink.first);
      if moved.Err? {
        return Err(moved.error);
      }
      moved := JournalTransition(id, Submitting, "broker submission started", sink.second);
      if moved.Err? {
        return Err(moved.error);
      }
      submissions := submissions + [order];
      out := FinishSubmission(order, reply, sink, latency);
    }

    method FinishSubmission(order: OrderRequest, reply: Reply, sink: Sink,
        latency: real) returns (out: Outcome<ExecutionResult>)
      modifies this
      ensures Done(View(), out) == AfterBrokerSubmit(old(View()), order, reply, sink, latency)
    {
      var id := order.clientOrderId;
      if reply.NoRecord? {
        return Err(MissingReply);
      }
      if reply.Raised? {
        var unknown := UnknownSubmission(order, reply.message);
        var moved := JournalTransition(id, Unknown, unknown.reason, sink.third);
        if moved.Err? {
          return Err(moved.error);
        }
        orders := orders[id := unknown];
        return Ok(ExecutionResult(order, unknown, false, latency, Some(reply.message)));
      }
      var snapshot := reply.snapshot;
      if snapshot.clientOrderId != id {
        return Err(IdMismatch);
      }
      if snapshot.requestedQuantity != order.quantity {
        return Err(SizeMismatch);
      }
      if !ContractHolds(snapshot) {
        return Err(ContractViolated);
      }
      if snapshot.latencyMs.None? {
        snapshot := snapshot.(latencyMs := Some(latency));
      }
      var moved := JournalTransition(id, snapshot.status, OrElse(snapshot.reason, "broker acknowledged order"),
        sink.third);
      if moved.Err? {
        return Err(moved.error);
      }
      KeepSnapshot(id, snapshot);
      if sink.trailing {
        return Err(SinkRaised);
      }
      return Ok(ExecutionResult(order, snapshot, snapshot.status !in {RejectedBroker, Failed}, latency,
                                ErrorText(snapshot.reason)));
    }

    method RefreshOrder(id: string, reply: Reply, sink: Sink) returns (out: Outcome<OrderSnapshot>)
      modifies this
      ensures Done(View(), out) == Refresh(old(View()), id, reply, sink)
    {
      if Blank(id) {
        return Err(BlankId);
      }
      match reply {
        case Raised(message) =>
          return Err(BrokerRaised(message));
        case NoRecord =>
          if id !in orders {
            return Err(UnknownOrder);
          }
          var unknown := orders[id].(status := Unknown, reason := "broker returned no order state");
          var moved := JournalTransition(id, Unknown, unknown.reason, sink.first);
          if moved.Err? {
            return Err(moved.error);
          }
          orders := orders[id := unknown];
          return Ok(unknown);
        case Reported(snapshot) =>
          if id !in states {
            states := states[id := snapshot.status];
          } else {
            var moved := JournalTransition(id, snapshot.status, "broker refresh", sink.first);
            if moved.Err? {
              return Err(moved.error);
            }
          }
          KeepSnapshot(id, snapshot);
          return Ok(snapshot);
      }
    }

    method RecoverUnknownOrder(id: string, reply: Reply, sink: Sink) returns (out: Outcome<OrderSnapshot>)
      modifies this
      ensures Done(View(), out) == RecoverUnknown(old(View()), id, reply, sink)
    {
      if id !in orders {
        return Err(UnknownOrder);
      }
      var prior := orders[id];
      if !prior.status.Unknown? {
        return Ok(prior);
      }
      match reply {
        case Raised(message) =>
          return Err(BrokerRaised(message));
        case NoRecord =>
          return Ok(prior);
        case Reported(snapshot) =>
          if snapshot.clientOrderId != id {
            return Err(IdMismatch);
          }
          if snapshot.requestedQuantity != prior.requestedQuantity {
            return Err(SizeMismatch);
          }
          if !ContractHolds(snapshot) {
            return Err(ContractViolated);
          }
          var moved := JournalTransition(id, snapshot.status,
                                         OrElse(snapshot.reason, "unknown order resolved from broker state"),
                                           sink.first);
          if moved.Err? {
            return Err(moved.error);
          }
          KeepSnapshot(id, snapshot);
          return Ok(snapshot);
      }
    }

    method RehydrateOrders(ids: seq<(string, Reply)>) returns (out: Outcome<map<string, OrderSnapshot>>)
      modifies this
      ensures Done(View(), out) == Rehydrate(old(View()), ids)
    {
      var recovered: map<string, OrderSnapshot> := map[];
      var i := 0;
      while i < |ids|
        invariant 0 <= i <= |ids|
        invariant Done(View(), Ok(recovered)) == Rehydrate(old(View()), ids[..i])
      {
        assert ids[..i + 1][..i] == ids[..i];
        var (id, reply) := ids[i];
        var one := RehydrateOneOrder(id, reply);
        match one {
          case Err(e) =>
            assert Done(View(), Err(e)) == Rehydrate(old(View()), ids[..i + 1]);
            RehydrateStopsAtFirstError(old(View()), ids, i + 1);
            return Err(e);
          case Ok(found) =>
            if found.Some? {
              recovered := recovered[id := found.value];
            }
        }
        i := i + 1;
      }
      assert ids[..i] == ids;
      return Ok(recovered);
    }

    method RehydrateOneOrder(id: string, reply: Reply) returns (out: Outcome<Option<OrderSnapshot>>)
      modifies this
      ensures Done(View(), out) == RehydrateOne(old(View()), id, reply)
    {
      if Blank(id) {
        return Err(BlankId);
      }
      var snapshot;
      match reply {
        case Raised(message) =>
          return Err(BrokerRaised(message));
        case NoRecord =>
          if id !in orders {
            return Ok(None);
          }
          snapshot := orders[id].(clientOrderId := id, status := Unknown,
                                  reason := "broker returned no order state during rehydration");
        case Reported(reported) =>
          snapshot := reported;
      }
      if !ContractHolds(snapshot) {
        return Err(ContractViolated);
      }
      KeepSnapshot(id, snapshot);
      states := states[id := snapshot.status];
      return Ok(Some(snapshot));
    }

    method CancelOrder(id: string, reply: Reply, sink: Sink) returns (out: Outcome<OrderSnapshot>)
      modifies this
      ensures Done(View(), out) == Cancel(old(View()), id, reply, sink)
    {
      if id !in orders {
        return Err(UnknownOrder);
      }
      if orders[id].status in {Filled, Cancelled, RejectedBroker} {
        return Err(NotCancellable);
      }
      var moved := JournalTransition(id, CancelPending, "cancellation requested", sink.first);
      if moved.Err? {
        return Err(moved.error);
      }
      match reply {
        case NoRecord =>
          return Err(MissingReply);
        case Raised(message) =>
          return Err(BrokerRaised(message));
        case Reported(snapshot) =>
          if !snapshot.status.CancelPending? {
            moved := JournalTransition(id, snapshot.status, OrElse(snapshot.reason, "cancellation result"),
              sink.second);
            if moved.Err? {
              return Err(moved.error);
            }
          }
          KeepSnapshot(id, snapshot);
          return Ok(snapshot);
      }
    }
  }

  /** An exception in `rehydrate` ends the loop: the later ids change nothing. */
  lemma {:induction false} RehydrateStopsAtFirstError(s: EngineState, ids: seq<(string, Reply)>, k: nat)
    requires k <= |ids| && Rehydrate(s, ids[..k]).outcome.Err?
    ensures Rehydrate(s, ids) == Rehydrate(s, ids[..k])
    decreases |ids| - k
  {
    if k == |ids| {
      assert ids[..k] == ids;
    } else {
      assert ids[..k + 1][..k] == ids[..k];
      assert Rehydrate(s, ids[..k + 1]) == Rehydrate(s, ids[..k]);
      RehydrateStopsAtFirstError(s, ids, k + 1);
    }
  }
}
