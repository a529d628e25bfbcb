/** The event journal: every entry is an allowed edge, and in a run without
    `rehydrate` the entries of each order form a path ending at its status. */
module OrderJournal {
  import opened Common
  import opened Authority
  import opened OrderProtocol
  import opened OrderCells
  import opened OrderSafety

  predicate LegalEvent(e: Event) {
    match e.fromStatus
    case None => e.toStatus.Validated?
    case Some(prior) => e.toStatus in AllowedTargets(prior) && e.toStatus != prior
  }

  /** The events of one order, in journal order. */
  function EventsOf(events: seq<Event>, id: string): seq<Event> {
    if events == [] then []
    else
      var last := events[|events| - 1];
      EventsOf(events[..|events| - 1], id) + (if last.clientOrderId == id then [last] else [])
  }

  ghost predicate IsPath(events: seq<Event>) {
    forall i, j :: 0 <= i && j == i + 1 < |events| ==> events[j].fromStatus == Some(events[i].toStatus)
  }

  /** The order's events chain, and the last one names its current status. */
  ghost predicate JournalIsPath(s: EngineState, id: string) {
    var own := EventsOf(s.events, id);
    && IsPath(own)
    && (own != [] ==> id in s.states && s.states[id] == own[|own| - 1].toStatus)
  }

  /** What one call appends: legal events that keep every path. */
  ghost predicate Extends(s: EngineState, after: EngineState, other: string) {
    && s.events <= after.events
    && (forall i :: |s.events| <= i < |after.events| ==> LegalEvent(after.events[i]))
    && (JournalIsPath(s, other) ==> JournalIsPath(after, other))
    && (forall k :: k in s.states ==> k in after.states)
  }

  lemma ExtendsTransitive(a: EngineState, b: EngineState, c: EngineState, other: string)
    requires Extends(a, b, other) && Extends(b, c, other)
    ensures Extends(a, c, other)
  {
    hide JournalIsPath, LegalEvent;
    forall i | |a.events| <= i < |c.events| ensures LegalEvent(c.events[i]) {
      if i < |b.events| {
        assert c.events[i] == b.events[i];
      }
    }
  }

  /** A change of the other fields appends nothing. */
  lemma SameJournalExtends(s: EngineState, after: EngineState, other: string)
    requires after.events == s.events && after.states == s.states
    ensures Extends(s, after, other)
  {
  }

  /** Appending the event of a status change keeps every order's path. */
  lemma AppendKeepsPath(s: EngineState, e: Event, other: string)
    requires e.fromStatus == (if e.clientOrderId in s.states then Some(s.states[e.clientOrderId]) else None)
    requires JournalIsPath(s, other)
    ensures JournalIsPath(s.(states := s.states[e.clientOrderId := e.toStatus], events := s.events + [e]), other)
  {
    var events := s.events + [e];
    assert events[..|s.events|] == s.events;
    assert EventsOf(events, other) == EventsOf(s.events, other) + (if e.clientOrderId == other then [e] else []);
  }

  lemma TransitionExtends(s: EngineState, id: string, target: OrderStatus, reason: string, raises: bool, other: string)
    requires id in s.states || target.Validated?
    ensures var t := Transition(s, id, target, reason, raises);
            && Extends(s, t.state, other)
            && (t.outcome.Ok? ==> id in t.state.states)
  {
    hide JournalIsPath;
    var after := Transition(s, id, target, reason, raises).state;
    if after != s {
      var e := after.events[|s.events|];
      if JournalIsPath(s, other) {
        AppendKeepsPath(s, e, other);
      }
    }
  }

  lemma SubmitExtends(s: EngineState, order: OrderRequest, reply: Reply, sink: Sink, latency: real, other: string)
    ensures Extends(s, Submit(s, order, reply, sink, latency).state, other)
  {
    hide Transition, Validate, AfterBrokerSubmit, Extends;
    var k := order.clientOrderId;
    var after := Submit(s, order, reply, sink, latency).state;
    var s0 := if k in s.requests then s else s.(requests := s.requests[k := order]);
    SameJournalExtends(s, s, other);
    SameJournalExtends(s, s0, other);
    if Validate(order).Ok? && k !in s.orders {
      var t := Transition(s0, k, Validated, "local validation passed", sink.first);
      TransitionExtends(s0, k, Validated, "local validation passed", sink.first, other);
      ExtendsTransitive(s, s0, t.state, other);
      if t.outcome.Ok? {
        var u := Transition(t.state, k, Submitting, "broker submission started", sink.second);
        TransitionExtends(t.state, k, Submitting, "broker submission started", sink.second, other);
        ExtendsTransitive(s, t.state, u.state, other);
        if u.outcome.Ok? {
          var sent := u.state.(submissions := u.state.submissions + [order]);
          SameJournalExtends(u.state, sent, other);
          ExtendsTransitive(s, u.state, sent, other);
          AfterBrokerSubmitExtends(sent, order, reply, sink, latency, other);
          ExtendsTransitive(s, sent, after, other);
        }
      }
    }
  }

  lemma AfterBrokerSubmitExtends(s: EngineState, order: OrderRequest, reply: Reply, sink: Sink, latency: real,
      other: string)
    requires order.clientOrderId in s.states
    ensures Extends(s, AfterBrokerSubmit(s, order, reply, sink, latency).state, other)
  {
    hide Transition, ContractHolds, Extends;
    var after := AfterBrokerSubmit(s, order, reply, sink, latency).state;
    SameJournalExtends(s, s, other);
    var target := if reply.Reported? then reply.snapshot.status else Unknown;
    var reason := if reply.Reported? then OrElse(reply.snapshot.reason, "broker acknowledged order")
                  else if reply.Raised? then UnknownSubmission(order, reply.message).reason else "";
    var t := Transition(s, order.clientOrderId, target, reason, sink.third).state;
    TransitionExtends(s, order.clientOrderId, target, reason, sink.third, other);
    if after.events == t.events && after.states == t.states {
      SameJournalExtends(t, after, other);
      ExtendsTransitive(s, t, after, other);
    }
  }

  lemma RefreshExtends(s: EngineState, id: string, reply: Reply, sink: Sink, other: string)
    requires Tracked(s)
    ensures Extends(s, Refresh(s, id, reply, sink).state, other)
  {
    hide Transition;
    if reply.NoRecord? && id in s.orders {
      TransitionExtends(s, id, Unknown, "broker returned no order state", sink.first, other);
    } else if reply.Reported? && id in s.states {
      TransitionExtends(s, id, reply.snapshot.status, "broker refresh", sink.first, other);
    }
  }

  lemma RecoverExtends(s: EngineState, id: string, reply: Reply, sink: Sink, other: string)
    requires Tracked(s)
    ensures Extends(s, RecoverUnknown(s, id, reply, sink).state, other)
  {
    hide Transition;
    if reply.Reported? && id in s.orders {
      TransitionExtends(s, id, reply.snapshot.status,
                        OrElse(reply.snapshot.reason, "unknown order resolved from broker state"), sink.first, other);
    }
  }

  lemma CancelExtends(s: EngineState, id: string, reply: Reply, sink: Sink, other: string)
    requires Tracked(s)
    ensures Extends(s, Cancel(s, id, reply, sink).state, other)
  {
    hide Transition, Extends;
    var after := Cancel(s, id, reply, sink).state;
    SameJournalExtends(s, s, other);
    if id in s.orders {
      var t := Transition(s, id, CancelPending, "cancellation requested", sink.first);
      TransitionExtends(s, id, CancelPending, "cancellation requested", sink.first, other);
      if t.outcome.Ok? && reply.Reported? {
        var reason := OrElse(reply.snapshot.reason, "cancellation result");
        var u := Transition(t.state, id, reply.snapshot.status, reason, sink.second).state;
        TransitionExtends(t.state, id, reply.snapshot.status, reason, sink.second, other);
        ExtendsTransitive(s, t.state, u, other);
        var last := if reply.snapshot.status.CancelPending? then t.state else u;
        if after.events == last.events && after.states == last.states {
          SameJournalExtends(last, after, other);
          ExtendsTransitive(s, last, after, other);
        }
      }
    }
  }

  /** Every call but `rehydrate` extends the journal legally. */
  lemma StepExtends(s: EngineState, call: Call, other: string)
    requires Tracked(s) && !call.RehydrateCall?
    ensures Extends(s, Step(s, call).state, other)
  {
    hide Submit, Refresh, RecoverUnknown, Cancel, Extends, Tracked;
    match call {
      case SubmitCall(order, reply, sink, latency) => SubmitExtends(s, order, reply, sink, latency, other);
      case RefreshCall(id, reply, sink) => RefreshExtends(s, id, reply, sink, other);
      case RecoverCall(id, reply, sink) => RecoverExtends(s, id, reply, sink, other);
      case CancelCall(id, reply, sink) => CancelExtends(s, id, reply, sink, other);
    }
  }

  /** Every journaled event is an allowed edge, never a self-loop, and an event
      without a prior status only enters VALIDATED. */
  lemma {:induction false} JournalHoldsOnlyAllowedEdges(calls: seq<Call>)
    ensures forall e :: e in Run(calls).events ==> LegalEvent(e)
    decreases |calls|
  {
    hide Step, LegalEvent, JournalIsPath;
    if calls != [] {
      var n := |calls| - 1;
      var s := Run(calls[..n]);
      JournalHoldsOnlyAllowedEdges(calls[..n]);
      RunTracked(calls[..n]);
      if calls[n].RehydrateCall? {
        RehydrateCell(s, calls[n].ids, "");
        assert Step(s, calls[n]).state.events == s.events by { StepOfRehydrate(s, calls[n].ids); }
      } else {
        StepExtends(s, calls[n], "");
        var after := Step(s, calls[n]).state;
        forall e | e in after.events ensures LegalEvent(e) {
          var i :| 0 <= i < |after.events| && after.events[i] == e;
          if i < |s.events| {
            assert s.events[i] == e;
          }
        }
      }
    }
  }

  lemma StepOfRehydrate(s: EngineState, ids: seq<(string, Reply)>)
    ensures Step(s, RehydrateCall(ids)).state.events == s.events
  {
    RehydrateCell(s, ids, "");
  }

  /** In a run without `rehydrate`, the events of each order chain and the last
      one names its current status: the journal alone rebuilds the state. */
  lemma {:induction false} JournalRebuildsEveryStatus(calls: seq<Call>, id: string)
    requires forall i :: 0 <= i < |calls| ==> !calls[i].RehydrateCall?
    ensures JournalIsPath(Run(calls), id)
    decreases |calls|
  {
    hide Step, JournalIsPath;
    if calls == [] {
      EmptyJournalIsPath(id);
    } else {
      var n := |calls| - 1;
      JournalRebuildsEveryStatus(calls[..n], id);
      RunTracked(calls[..n]);
      StepExtends(Run(calls[..n]), calls[n], id);
    }
  }

  lemma EmptyJournalIsPath(id: string)
    ensures JournalIsPath(INITIAL, id)
  {
  }

  lemma RehydrateSingle(s: EngineState, id: string, reply: Reply)
    ensures Rehydrate(s, [(id, reply)]).state == RehydrateOne(s, id, reply).state
  {
    var pairs := [(id, reply)];
    assert pairs[..0] == [];
    assert Rehydrate(s, []) == Done(s, Ok(map[]));
    assert pairs[0] == (id, reply);
  }

  lemma SubmitWithoutAnswer(order: OrderRequest)
    requires Validate(order).Ok?
    ensures var id := order.clientOrderId;
            var s := Submit(INITIAL, order, NoRecord, HEALTHY_SINK, 0.0).state;
            && s.states == map[id := Submitting]
            && s.events == [Event(id, order.decisionId, order.purpose, None, Validated, "local validation passed"),
                            Event(id, order.decisionId, order.purpose, Some(Validated), Submitting,
                              "broker submission started")]
  {
    hide Validate;
  }

  /** `rehydrate` overwrites a status without journaling it, so the path ends
      where the journal last saw the order. */
  lemma RehydrateLeavesTheJournalBehind(order: OrderRequest, found: OrderSnapshot)
    requires Validate(order).Ok? && !Blank(order.clientOrderId)
    requires found.status.Open? && ContractHolds(found)
    ensures var id := order.clientOrderId;
            var calls := [SubmitCall(order, NoRecord, HEALTHY_SINK, 0.0), RehydrateCall([(id, Reported(found))])];
            !JournalIsPath(Run(calls), id)
  {
    hide Validate, Submit, Rehydrate, Transition;
    var id := order.clientOrderId;
    var submit, rehydrate := SubmitCall(order, NoRecord, HEALTHY_SINK, 0.0), RehydrateCall([(id, Reported(found))]);
    assert [submit, rehydrate][..1] == [submit] && [submit][..0] == [];
    var s := Submit(INITIAL, order, NoRecord, HEALTHY_SINK, 0.0).state;
    SubmitWithoutAnswer(order);
    RehydrateSingle(s, id, Reported(found));
    assert Run([submit]) == s;
    assert s.events[..1] == [s.events[0]];
    assert EventsOf(s.events, id) == EventsOf([s.events[0]], id) + [s.events[1]];
  }

  // ------------------------------------------------------------ with rehydrate

  /** What `rehydrate` writes for an id: nothing when it rejects or skips it,
      otherwise the reported status, or UNKNOWN for a missing record. */
  function WrittenStatus(s: EngineState, id: string, reply: Reply): Option<OrderStatus> {
    if Blank(id) || reply.Raised? || (reply.NoRecord? && id !in s.orders) then None
    else
      var snapshot := if reply.Reported? then reply.snapshot else s.orders[id].(status := Unknown);
      if ContractHolds(snapshot) then Some(snapshot.status) else None
  }

  /** The status the ids, in order, leave for one of them, up to the first that
      is rejected; None when it is never written. */
  function LastWritten(s: EngineState, ids: seq<(string, Reply)>, id: string): Option<OrderStatus> {
    if ids == [] then None
    else
      var n := |ids| - 1;
      var earlier := Rehydrate(s, ids[..n]);
      var written := if ids[n].0 == id && earlier.outcome.Ok? then WrittenStatus(earlier.state, id, ids[n].1) else None;
      if written.Some? then written else LastWritten(s, ids[..n], id)
  }

  lemma RehydrateOneWrites(s: EngineState, k: string, reply: Reply, id: string)
    ensures var after := RehydrateOne(s, k, reply).state;
            var written := if k == id then WrittenStatus(s, id, reply) else None;
            && after.events == s.events
            && CellOf(after, id).status == (if written.Some? then written else CellOf(s, id).status)
  {
    hide Blank;
  }

  lemma {:induction false} RehydrateWrites(s: EngineState, ids: seq<(string, Reply)>, id: string)
    ensures var after := Rehydrate(s, ids).state;
            && after.events == s.events
            && CellOf(after, id).status
               == (if LastWritten(s, ids, id).Some? then LastWritten(s, ids, id) else CellOf(s, id).status)
    decreases |ids|
  {
    hide RehydrateOne, WrittenStatus;
    if ids != [] {
      var n := |ids| - 1;
      RehydrateWrites(s, ids[..n], id);
      RehydrateOneWrites(Rehydrate(s, ids[..n]).state, ids[n].0, ids[n].1, id);
    }
  }

  /** `rehydrate` moves the status of a journaled order without an event. */
  predicate Drifts(s: EngineState, ids: seq<(string, Reply)>, id: string) {
    && EventsOf(s.events, id) != []
    && LastWritten(s, ids, id).Some? && LastWritten(s, ids, id) != CellOf(s, id).status
  }

  /** `rehydrate` keeps the journal of an order a path that rebuilds its status
      exactly when the order was never journaled, or is not written, or is left
      with the status it already has. */
  lemma RehydrateKeepsThePathExactlyWhen(s: EngineState, ids: seq<(string, Reply)>, id: string)
    requires JournalIsPath(s, id)
    ensures JournalIsPath(Rehydrate(s, ids).state, id) <==> !Drifts(s, ids, id)
  {
    RehydrateWrites(s, ids, id);
    hide Rehydrate, EventsOf, LastWritten;
  }

  /** One id, in the caller's terms: the journal survives exactly when the id is
      rejected or skipped, or the status that would be written is already there. */
  lemma RehydrateOneKeepsThePathExactlyWhen(s: EngineState, id: string, reply: Reply)
    requires JournalIsPath(s, id) && EventsOf(s.events, id) != []
    ensures JournalIsPath(RehydrateOne(s, id, reply).state, id) <==>
            || Blank(id) || reply.Raised?
            || (reply.NoRecord? && (id !in s.orders || s.states[id].Unknown?
               || !ContractHolds(s.orders[id].(status := Unknown))))
            || (reply.Reported? && (reply.snapshot.status == s.states[id] || !ContractHolds(reply.snapshot)))
  {
    RehydrateOneWrites(s, id, reply, id);
    hide RehydrateOne, EventsOf, ContractHolds, Blank;
  }

  /** A `rehydrate` that drifts the order. */
  predicate DriftingCall(s: EngineState, call: Call, id: string) {
    call.RehydrateCall? && Drifts(s, call.ids, id)
  }

  /** Over runs: the journal rebuilds the status of an order at every point
      exactly when no `rehydrate` of the run drifts it. */
  lemma JournalAlwaysRebuildsExactlyWhen(calls: seq<Call>, id: string)
    ensures AlwaysHolds(calls, s => JournalIsPath(s, id))
            <==> NeverLoses(calls, (s, call) => DriftingCall(s, call, id))
  {
    var holds, loses := s => JournalIsPath(s, id), (s, call) => DriftingCall(s, call, id);
    EmptyJournalIsPath(id);
    hide JournalIsPath, Drifts, Submit, Refresh, RecoverUnknown, Cancel, Rehydrate, Tracked;
    forall s, call | Tracked(s) && holds(s) ensures holds(Step(s, call).state) <==> !loses(s, call) {
      if call.RehydrateCall? {
        RehydrateKeepsThePathExactlyWhen(s, call.ids, id);
      } else {
        StepExtends(s, call, id);
      }
    }
    hide Step, DriftingCall;
    AlwaysExactlyWhen(calls, holds, loses);
  }
}
