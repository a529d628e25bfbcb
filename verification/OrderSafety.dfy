/** What every run of the order protocol keeps, whatever the broker and the
    audit sink do. */
module OrderSafety {
  import opened Common
  import opened Authority
  import opened OrderProtocol
  import opened OrderCells

  /** Every stored order has a lifecycle status. */
  ghost predicate Tracked(s: EngineState) {
    forall id :: id in s.orders ==> id in s.states
  }

  lemma {:induction false} RunTracked(calls: seq<Call>)
    ensures Tracked(Run(calls))
    decreases |calls|
  {
    if calls != [] {
      var s, call := Run(calls[..|calls| - 1]), calls[|calls| - 1];
      RunTracked(calls[..|calls| - 1]);
      hide Step, Effect;
      var after := Step(s, call).state;
      forall id | id in after.orders ensures id in after.states {
        StepCell(s, call, id);
        EffectTracks(CellOf(s, id), call, id, CellOf(after, id));
      }
    }
  }

  lemma EffectTracks(before: Cell, call: Call, id: string, after: Cell)
    requires Effect(before, call, id, after) && (before.order.Some? ==> before.status.Some?)
    ensures after.order.Some? ==> after.status.Some?
  {
  }

  // ------------------------------------------------------ at every point of a run

  ghost predicate HoldsAt(calls: seq<Call>, holds: EngineState -> bool, m: nat)
    requires m <= |calls|
  {
    holds(Run(calls[..m]))
  }

  ghost predicate LosesAt(calls: seq<Call>, loses: (EngineState, Call) -> bool, k: nat)
    requires k < |calls|
  {
    loses(Run(calls[..k]), calls[k])
  }

  ghost predicate AlwaysHolds(calls: seq<Call>, holds: EngineState -> bool) {
    forall m :: 0 <= m <= |calls| ==> HoldsAt(calls, holds, m)
  }

  ghost predicate NeverLoses(calls: seq<Call>, loses: (EngineState, Call) -> bool) {
    forall k :: 0 <= k < |calls| ==> !LosesAt(calls, loses, k)
  }

  /** A property that holds of a new engine, and that a call in a tracked state
      loses exactly when its guard says so, holds at every point of a run exactly
      when no call of the run meets its guard. */
  lemma {:induction false} AlwaysExactlyWhen(calls: seq<Call>, holds: EngineState -> bool,
      loses: (EngineState, Call) -> bool)
    requires holds(INITIAL)
    requires forall s, call :: Tracked(s) && holds(s) ==> (holds(Step(s, call).state) <==> !loses(s, call))
    ensures AlwaysHolds(calls, holds) <==> NeverLoses(calls, loses)
    decreases |calls|
  {
    hide Step;
    if calls != [] {
      var n := |calls| - 1;
      AlwaysExactlyWhen(calls[..n], holds, loses);
      forall m | 0 <= m <= n ensures HoldsAt(calls[..n], holds, m) <==> HoldsAt(calls, holds, m) {
        assert calls[..n][..m] == calls[..m];
      }
      forall k | 0 <= k < n ensures LosesAt(calls[..n], loses, k) <==> LosesAt(calls, loses, k) {
        assert calls[..n][..k] == calls[..k];
      }
      RunTracked(calls[..n]);
      assert calls[..|calls|] == calls;
      assert HoldsAt(calls, holds, n) ==> (HoldsAt(calls, holds, |calls|) <==> !LosesAt(calls, loses, n));
    } else {
      assert HoldsAt(calls, holds, 0);
    }
  }

  // ----------------------------------------------------- at-most-once submission

  /** Every id in the log is claimed, and no id is in it twice. */
  ghost predicate SubmittedOnce(s: EngineState) {
    && (forall i :: 0 <= i < |s.submissions| ==> !Unclaimed(CellOf(s, s.submissions[i].clientOrderId)))
    && (forall i, j :: 0 <= i < j < |s.submissions| ==>
       s.submissions[i].clientOrderId != s.submissions[j].clientOrderId)
  }

  lemma ClaimsStick(before: Cell, call: Call, id: string, after: Cell)
    requires !Unclaimed(before) && Effect(before, call, id, after)
    ensures !Unclaimed(after)
  {
  }

  lemma StepSubmittedOnce(s: EngineState, call: Call)
    requires SubmittedOnce(s) && Tracked(s)
    ensures SubmittedOnce(Step(s, call).state)
  {
    hide Submit, Refresh, RecoverUnknown, Rehydrate, Cancel, Effect, SubmitEffect;
    var after := Step(s, call).state;
    if call.SubmitCall? {
      SubmitCell(s, call.order, call.reply, call.sink, call.latency, call.order.clientOrderId);
    } else {
      StepCell(s, call, "");
    }
    forall i | 0 <= i < |s.submissions| ensures !Unclaimed(CellOf(after, s.submissions[i].clientOrderId)) {
      var id := s.submissions[i].clientOrderId;
      StepCell(s, call, id);
      ClaimsStick(CellOf(s, id), call, id, CellOf(after, id));
    }
  }

  /** Whatever the broker and the sink do, no client order id is handed to the
      broker's `submit` twice. */
  lemma {:induction false} AtMostOnceSubmission(calls: seq<Call>)
    ensures SubmittedOnce(Run(calls))
    decreases |calls|
  {
    hide Step;
    if calls != [] {
      AtMostOnceSubmission(calls[..|calls| - 1]);
      RunTracked(calls[..|calls| - 1]);
      StepSubmittedOnce(Run(calls[..|calls| - 1]), calls[|calls| - 1]);
    }
  }

  // ------------------------------------------------------------ authority

  ghost predicate Authorised(s: EngineState) {
    forall r :: r in s.submissions ==>
                  && r.authorization.Some?
                  && r.authorization.value.status.Authorized?
                  && r.quantity == r.authorization.value.approvedQuantity
                  && r.symbol == r.authorization.value.symbol
                  && SideFor(r.authorization.value.direction) == Ok(r.side)
  }

  /** Every order the broker ever sees repeats an AUTHORIZED authorization:
      same symbol, same side, exactly the approved quantity. */
  lemma {:induction false} EverySubmissionIsAuthorised(calls: seq<Call>)
    ensures Authorised(Run(calls))
    decreases |calls|
  {
    hide Submit, Refresh, RecoverUnknown, Rehydrate, Cancel, SubmitEffect;
    if calls != [] {
      var s, call := Run(calls[..|calls| - 1]), calls[|calls| - 1];
      EverySubmissionIsAuthorised(calls[..|calls| - 1]);
      if call.SubmitCall? {
        SubmitCell(s, call.order, call.reply, call.sink, call.latency, call.order.clientOrderId);
      } else {
        RunTracked(calls[..|calls| - 1]);
        StepCell(s, call, "");
      }
    }
  }

  /** One risk decision moves the market at most once: two submissions built
      from authorizations with the same decision id, symbol, direction, risk
      version and purpose are the same submission. */
  lemma OneSubmissionPerDecision(
      calls: seq<Call>, digest: string -> string, i: nat, j: nat,
      a: ExecutionAuthorization, b: ExecutionAuthorization, decisionId: string, purpose: string,
      typeA: OrderType, priceA: Option<real>, atA: int, typeB: OrderType, priceB: Option<real>, atB: int)
    requires i < |Run(calls).submissions| && j < |Run(calls).submissions|
    requires FromAuthorization(digest, a, decisionId, typeA, priceA, purpose, atA) == Ok(Run(calls).submissions[i])
    requires FromAuthorization(digest, b, decisionId, typeB, priceB, purpose, atB) == Ok(Run(calls).submissions[j])
    requires a.symbol == b.symbol && a.direction == b.direction && a.riskVersion == b.riskVersion
    ensures i == j
  {
    AtMostOnceSubmission(calls);
  }

  /** From Risk to the broker: a submission whose authorization came out of
      `authorize_execution` has exactly the size Risk approved, in Risk's
      direction and symbol, and Safety allowed it. */
  lemma RiskAndSafetyStandBehindEverySubmission(
      calls: seq<Call>, r: OrderRequest, d: RiskDecision, quantity: Option<real>, notional: Option<real>,
      id: string, restrictions: seq<string>, safety: SafetyDecision)
    requires r in Run(calls).submissions
    requires r.authorization.Some?
    requires AuthorizeExecution(d, quantity, notional, id, restrictions, safety) == Ok(r.authorization.value)
    ensures d.status.Approved? && safety.allowed
    ensures r.quantity == d.approvedQuantity && r.symbol == d.symbol && SideFor(d.direction) == Ok(r.side)
  {
    EverySubmissionIsAuthorised(calls);
  }

  /** An order built from an authorization passes `validate` exactly when the
      authorization's symbol is already in canonical form: the order's symbol is
      normalised and the authorization's is not. */
  lemma BuiltOrdersValidateExactlyWhen(
      digest: string -> string, a: ExecutionAuthorization, decisionId: string, orderType: OrderType,
      limitPrice: Option<real>, purpose: string, createdAt: int)
    requires FromAuthorization(digest, a, decisionId, orderType, limitPrice, purpose, createdAt).Ok?
    ensures var order := FromAuthorization(digest, a, decisionId, orderType, limitPrice, purpose, createdAt).value;
            Validate(order).Ok? <==> Normalize(a.symbol) == a.symbol
  {
    hide Normalize, OrderIdentity, Blank;
  }

  /** A hand-made authorization with a lower-case symbol builds an order that is
      never accepted. */
  lemma LowerCaseSymbolIsNeverAccepted(digest: string -> string)
    ensures var a := ExecutionAuthorization(0, "abc", Long, Authorized, "r1", 1.0, 1.0, "d1", []);
            var built := FromAuthorization(digest, a, "d1", Market, None, "ENTRY", 0);
            built.Ok? && Validate(built.value).Err?
  {
    var a := ExecutionAuthorization(0, "abc", Long, Authorized, "r1", 1.0, 1.0, "d1", []);
    StripOfTight("abc");
    StripOfTight("d1");
    assert Normalize("abc")[0] == 'A';
    var id := "SB-" + digest(OrderIdentity(a, "d1", "ENTRY"));
    assert id[0] == 'S';
    PrintableHeadIsNotBlank(id);
    hide Strip, OrderIdentity;
  }

  /** Risk stores its symbols normalised, so an order built from anything that
      `authorize_execution` authorised always passes `validate`. */
  lemma AuthorisedDecisionsBuildValidOrders(
      d: RiskDecision, quantity: Option<real>, notional: Option<real>, id: string, restrictions: seq<string>,
      safety: SafetyDecision, digest: string -> string, decisionId: string, orderType: OrderType,
      limitPrice: Option<real>, purpose: string, createdAt: int)
    requires AuthorizeExecution(d, quantity, notional, id, restrictions, safety).Ok?
    requires var a := AuthorizeExecution(d, quantity, notional, id, restrictions, safety).value;
             FromAuthorization(digest, a, decisionId, orderType, limitPrice, purpose, createdAt).Ok?
    ensures var a := AuthorizeExecution(d, quantity, notional, id, restrictions, safety).value;
            Validate(FromAuthorization(digest, a, decisionId, orderType, limitPrice, purpose, createdAt).value).Ok?
  {
    var a := AuthorizeExecution(d, quantity, notional, id, restrictions, safety).value;
    assert a.symbol == d.symbol && RiskDecisionOk(d);
    hide FromAuthorization, AuthorizeExecution, Validate, Normalize;
    BuiltOrdersValidateExactlyWhen(digest, a, decisionId, orderType, limitPrice, purpose, createdAt);
  }

  /** So every exit order that passes `validate` shrinks the observed position
      by whatever part of it is filled, in the direction that was authorised. */
  lemma ExitOrdersThatValidateOnlyClose(
      digest: string -> string, a: ExecutionAuthorization, decisionId: string, position: PositionSnapshot,
      quantity: Option<real>, orderType: OrderType, limitPrice: Option<real>, createdAt: int, fill: real)
    requires FromExitAuthorization(digest, a, decisionId, position, quantity, orderType, limitPrice, createdAt).Ok?
    requires 0.0 <= fill <= a.approvedQuantity
    ensures var order := FromExitAuthorization(digest, a, decisionId, position, quantity, orderType, limitPrice,
            createdAt).value;
            && order.quantity == a.approvedQuantity <= Abs(position.quantity)
            && Abs(position.quantity + SignedFill(order.side, fill)) == Abs(position.quantity) - fill
            && (Validate(order).Ok? <==> a.symbol == position.symbol)
  {
    hide Normalize, OrderIdentity, Blank;
  }

  // ---------------------------------------------------------- local agreement

  /** The audit sink took every record of the call. */
  predicate HealthySink(call: Call) {
    match call
    case SubmitCall(_, _, sink, _) => sink == HEALTHY_SINK
    case RefreshCall(_, _, sink) => sink == HEALTHY_SINK
    case RecoverCall(_, _, sink) => sink == HEALTHY_SINK
    case RehydrateCall(_) => true
    case CancelCall(_, _, sink) => sink == HEALTHY_SINK
  }

  /** A cancel of `id` that the broker did not answer with a legal status. */
  predicate UnansweredCancel(call: Call, id: string) {
    call.CancelCall? && call.id == id && CancelUnanswered(call.reply)
  }

  lemma DisagreementComesFromCancel(before: Cell, call: Call, id: string, after: Cell)
    requires HealthySink(call) && Effect(before, call, id, after)
    requires after.order.Some? && !Agrees(after)
    ensures after == before
            || (UnansweredCancel(call, id) && after.status == Some(CancelPending) && after.order == before.order)
  {
  }

  /** With a sink that never raises, a stored order and its status agree, except
      for a CANCEL_PENDING that an unanswered cancel left: that cancel is call
      `k`, and nothing has changed the order's entry since. */
  lemma {:induction false} LocalStateAgrees(calls: seq<Call>, id: string) returns (k: nat)
    requires forall i :: 0 <= i < |calls| ==> HealthySink(calls[i])
    ensures var c := CellOf(Run(calls), id);
            c.order.Some? ==>
              || Agrees(c)
              || (&& c.status == Some(CancelPending)
                  && k < |calls| && UnansweredCancel(calls[k], id)
                  && forall m :: k < m <= |calls| ==> CellOf(Run(calls[..m]), id) == c)
    decreases |calls|
  {
    hide Step, Effect, AllowedTargets;
    k := 0;
    if calls != [] {
      var n := |calls| - 1;
      var earlier := LocalStateAgrees(calls[..n], id);
      RunTracked(calls[..n]);
      var before, after := CellOf(Run(calls[..n]), id), CellOf(Run(calls), id);
      StepCell(Run(calls[..n]), calls[n], id);
      assert calls[..|calls|] == calls;
      if after.order.Some? && !Agrees(after) {
        DisagreementComesFromCancel(before, calls[n], id, after);
        if after == before {
          k := earlier;
          forall m | k < m <= n ensures CellOf(Run(calls[..m]), id) == after {
            assert calls[..n][..m] == calls[..m];
          }
        } else {
          k := n;
        }
      }
    }
  }

  // ------------------------------------------------------- constructor checks

  predicate ReplyOk(reply: Reply) {
    reply.Reported? ==> SnapshotOk(reply.snapshot)
  }

  /** The request and the reported snapshots of a call passed their constructors. */
  predicate WellFormed(call: Call) {
    match call
    case SubmitCall(order, reply, _, latency) => OrderRequestOk(order) && ReplyOk(reply) && latency >= 0.0
    case RefreshCall(_, reply, _) => ReplyOk(reply)
    case RecoverCall(_, reply, _) => ReplyOk(reply)
    case RehydrateCall(ids) => forall i :: 0 <= i < |ids| ==> ReplyOk(ids[i].1)
    case CancelCall(_, reply, _) => ReplyOk(reply)
  }

  /** Every stored snapshot would pass its constructor, under a usable id. */
  ghost predicate Constructible(s: EngineState) {
    forall id :: id in s.orders ==> SnapshotOk(s.orders[id]) && !Blank(id)
  }

  lemma {:induction false} PrintableHeadIsNotBlank(s: string)
    requires s != "" && !IsSpace(s[0])
    ensures TrimRight(s) != "" && !Blank(s)
    decreases |s|
  {
    if IsSpace(s[|s| - 1]) {
      PrintableHeadIsNotBlank(s[..|s| - 1]);
    }
  }

  lemma TransitionKeepsOrders(s: EngineState, id: string, target: OrderStatus, reason: string, raises: bool)
    ensures Transition(s, id, target, reason, raises).state.orders == s.orders
  {
  }

  lemma AfterBrokerSubmitConstructible(s: EngineState, order: OrderRequest, reply: Reply, sink: Sink, latency: real)
    requires Constructible(s) && OrderRequestOk(order) && ReplyOk(reply) && latency >= 0.0
    ensures Constructible(AfterBrokerSubmit(s, order, reply, sink, latency).state)
  {
    hide Transition, AllowedTargets, ContractHolds, Blank;
    var id := order.clientOrderId;
    if reply.Raised? {
      var unknown := UnknownSubmission(order, reply.message);
      assert unknown.brokerOrderId[0] == 'U';
      PrintableHeadIsNotBlank(unknown.brokerOrderId);
      TransitionKeepsOrders(s, id, Unknown, unknown.reason, sink.third);
    } else if reply.Reported? {
      TransitionKeepsOrders(s, id, reply.snapshot.status, OrElse(reply.snapshot.reason, "broker acknowledged order"),
        sink.third);
    }
  }

  lemma SubmitConstructible(s: EngineState, order: OrderRequest, reply: Reply, sink: Sink, latency: real)
    requires Constructible(s) && OrderRequestOk(order) && ReplyOk(reply) && latency >= 0.0
    ensures Constructible(Submit(s, order, reply, sink, latency).state)
  {
    hide Transition, AllowedTargets, Validate, AfterBrokerSubmit, SnapshotOk, OrderRequestOk, Blank;
    var id := order.clientOrderId;
    var s0 := if id in s.requests then s else s.(requests := s.requests[id := order]);
    TransitionKeepsOrders(s0, id, Validated, "local validation passed", sink.first);
    var s1 := Transition(s0, id, Validated, "local validation passed", sink.first).state;
    TransitionKeepsOrders(s1, id, Submitting, "broker submission started", sink.second);
    var s2 := Transition(s1, id, Submitting, "broker submission started", sink.second).state;
    AfterBrokerSubmitConstructible(s2.(submissions := s2.submissions + [order]), order, reply, sink, latency);
  }

  lemma RefreshConstructible(s: EngineState, id: string, reply: Reply, sink: Sink)
    requires Constructible(s) && ReplyOk(reply)
    ensures Constructible(Refresh(s, id, reply, sink).state)
  {
    hide Transition, AllowedTargets, Blank;
    TransitionKeepsOrders(s, id, Unknown, "broker returned no order state", sink.first);
    if reply.Reported? {
      TransitionKeepsOrders(s, id, reply.snapshot.status, "broker refresh", sink.first);
    }
  }

  lemma RecoverConstructible(s: EngineState, id: string, reply: Reply, sink: Sink)
    requires Constructible(s) && ReplyOk(reply)
    ensures Constructible(RecoverUnknown(s, id, reply, sink).state)
  {
    hide Transition, AllowedTargets, Blank;
    if reply.Reported? {
      TransitionKeepsOrders(s, id, reply.snapshot.status,
                            OrElse(reply.snapshot.reason, "unknown order resolved from broker state"), sink.first);
    }
  }

  lemma CancelConstructible(s: EngineState, id: string, reply: Reply, sink: Sink)
    requires Constructible(s) && ReplyOk(reply)
    ensures Constructible(Cancel(s, id, reply, sink).state)
  {
    hide Transition, AllowedTargets, Blank;
    TransitionKeepsOrders(s, id, CancelPending, "cancellation requested", sink.first);
    if reply.Reported? {
      var s1 := Transition(s, id, CancelPending, "cancellation requested", sink.first).state;
      TransitionKeepsOrders(s1, id, reply.snapshot.status, OrElse(reply.snapshot.reason, "cancellation result"),
        sink.second);
    }
  }

  lemma {:induction false} RehydrateConstructible(s: EngineState, ids: seq<(string, Reply)>)
    requires Constructible(s) && forall i :: 0 <= i < |ids| ==> ReplyOk(ids[i].1)
    ensures Constructible(Rehydrate(s, ids).state)
    decreases |ids|
  {
    hide Blank;
    if ids != [] {
      RehydrateConstructible(s, ids[..|ids| - 1]);
    }
  }

  /** Every snapshot the engine itself builds passes its constructor, so none of
      its own constructions can raise; stored ids are never blank. */
  lemma {:induction false} StoredSnapshotsAreConstructible(calls: seq<Call>)
    requires forall i :: 0 <= i < |calls| ==> WellFormed(calls[i])
    ensures Constructible(Run(calls))
    decreases |calls|
  {
    hide Submit, Refresh, RecoverUnknown, Rehydrate, Cancel, Constructible;
    if calls == [] {
      InitialConstructible();
    } else {
      var n := |calls| - 1;
      var s := Run(calls[..n]);
      StoredSnapshotsAreConstructible(calls[..n]);
      match calls[n] {
        case SubmitCall(order, reply, sink, latency) => SubmitConstructible(s, order, reply, sink, latency);
        case RefreshCall(id, reply, sink) => RefreshConstructible(s, id, reply, sink);
        case RecoverCall(id, reply, sink) => RecoverConstructible(s, id, reply, sink);
        case RehydrateCall(ids) => RehydrateConstructible(s, ids);
        case CancelCall(id, reply, sink) => CancelConstructible(s, id, reply, sink);
      }
    }
  }

  lemma InitialConstructible()
    ensures Constructible(INITIAL)
  {
  }

  /** Every snapshot the engine can build in a reachable state passes its
      constructor, whether or not it is stored afterwards: the one for a failed
      submission, the report completed with a latency, and the UNKNOWN copies of
      `refresh` and `rehydrate`. */
  lemma BuiltSnapshotsAreConstructible(
      calls: seq<Call>, order: OrderRequest, message: string, reported: OrderSnapshot, latency: real, reason: string)
    requires forall i :: 0 <= i < |calls| ==> WellFormed(calls[i])
    requires OrderRequestOk(order) && SnapshotOk(reported) && latency >= 0.0
    ensures SnapshotOk(UnknownSubmission(order, message))
    ensures SnapshotOk(reported.(latencyMs := Some(latency)))
    ensures forall id :: id in Run(calls).orders ==>
                           && SnapshotOk(Run(calls).orders[id].(status := Unknown, reason := reason))
                           && SnapshotOk(Run(calls).orders[id].(clientOrderId := id, status := Unknown,
                              reason := reason))
  {
    StoredSnapshotsAreConstructible(calls);
    var unknown := UnknownSubmission(order, message);
    assert unknown.brokerOrderId[0] == 'U';
    PrintableHeadIsNotBlank(unknown.brokerOrderId);
    hide Run, Blank, WellFormed;
  }

  // ------------------------------------------------------------ fills

  /** The recorded fills of every order are those of its stored snapshot, none
      at all when nothing was recorded. */
  ghost predicate FillsMatch(s: EngineState) {
    && (forall id :: id in s.fills ==> id in s.orders)
    && (forall id :: id in s.orders ==> s.orders[id].fills == (if id in s.fills then s.fills[id] else []))
  }

  lemma TransitionKeepsRecords(s: EngineState, id: string, target: OrderStatus, reason: string, raises: bool)
    ensures var after := Transition(s, id, target, reason, raises).state;
            after.orders == s.orders && after.fills == s.fills
  {
  }

  lemma SubmitFills(s: EngineState, order: OrderRequest, reply: Reply, sink: Sink, latency: real)
    requires FillsMatch(s)
    ensures FillsMatch(Submit(s, order, reply, sink, latency).state)
  {
    hide Transition, Validate, AfterBrokerSubmit, FillsMatch;
    var id := order.clientOrderId;
    var s0 := if id in s.requests then s else s.(requests := s.requests[id := order]);
    TransitionKeepsRecords(s0, id, Validated, "local validation passed", sink.first);
    var s1 := Transition(s0, id, Validated, "local validation passed", sink.first).state;
    TransitionKeepsRecords(s1, id, Submitting, "broker submission started", sink.second);
    var s2 := Transition(s1, id, Submitting, "broker submission started", sink.second).state;
    SameRecords(s, s0);
    SameRecords(s, s1);
    SameRecords(s, s2);
    var sent := s2.(submissions := s2.submissions + [order]);
    SameRecords(s, sent);
    if id !in s.orders {
      AfterBrokerSubmitFills(sent, order, reply, sink, latency);
    }
  }

  lemma SameRecords(s: EngineState, after: EngineState)
    requires after.orders == s.orders && after.fills == s.fills
    ensures FillsMatch(s) <==> FillsMatch(after)
  {
  }

  lemma AfterBrokerSubmitFills(s: EngineState, order: OrderRequest, reply: Reply, sink: Sink, latency: real)
    requires FillsMatch(s) && order.clientOrderId !in s.orders
    ensures FillsMatch(AfterBrokerSubmit(s, order, reply, sink, latency).state)
  {
    hide Transition, ContractHolds, FillsMatch, Store;
    var id := order.clientOrderId;
    if reply.Raised? {
      var unknown := UnknownSubmission(order, reply.message);
      TransitionKeepsRecords(s, id, Unknown, unknown.reason, sink.third);
      var t := Transition(s, id, Unknown, unknown.reason, sink.third).state;
      SameRecords(s, t);
      NewOrderWithoutFills(t, id, unknown);
    } else if reply.Reported? {
      var reason := OrElse(reply.snapshot.reason, "broker acknowledged order");
      TransitionKeepsRecords(s, id, reply.snapshot.status, reason, sink.third);
      var t := Transition(s, id, reply.snapshot.status, reason, sink.third).state;
      SameRecords(s, t);
      StoreFills(t, id, reply.snapshot);
      StoreFills(t, id, reply.snapshot.(latencyMs := Some(latency)));
    }
  }

  lemma NewOrderWithoutFills(s: EngineState, id: string, snapshot: OrderSnapshot)
    requires FillsMatch(s) && id !in s.orders && snapshot.fills == []
    ensures FillsMatch(s.(orders := s.orders[id := snapshot]))
  {
  }

  lemma {:induction false} RehydrateFills(s: EngineState, ids: seq<(string, Reply)>)
    requires FillsMatch(s)
    ensures FillsMatch(Rehydrate(s, ids).state)
    decreases |ids|
  {
    hide Blank, ContractHolds;
    if ids != [] {
      RehydrateFills(s, ids[..|ids| - 1]);
    }
  }

  lemma RefreshFills(s: EngineState, id: string, reply: Reply, sink: Sink)
    requires FillsMatch(s)
    ensures FillsMatch(Refresh(s, id, reply, sink).state)
  {
    hide Transition, Blank;
    TransitionKeepsRecords(s, id, Unknown, "broker returned no order state", sink.first);
    if reply.Reported? {
      TransitionKeepsRecords(s, id, reply.snapshot.status, "broker refresh", sink.first);
    }
  }

  lemma RecoverFills(s: EngineState, id: string, reply: Reply, sink: Sink)
    requires FillsMatch(s)
    ensures FillsMatch(RecoverUnknown(s, id, reply, sink).state)
  {
    hide Transition, ContractHolds;
    if reply.Reported? {
      TransitionKeepsRecords(s, id, reply.snapshot.status,
                             OrElse(reply.snapshot.reason, "unknown order resolved from broker state"), sink.first);
    }
  }

  lemma StoreFills(s: EngineState, id: string, snapshot: OrderSnapshot)
    requires FillsMatch(s)
    ensures FillsMatch(Store(s, id, snapshot))
  {
  }

  lemma CancelFills(s: EngineState, id: string, reply: Reply, sink: Sink)
    requires FillsMatch(s)
    ensures FillsMatch(Cancel(s, id, reply, sink).state)
  {
    hide Transition, FillsMatch, Store;
    TransitionKeepsRecords(s, id, CancelPending, "cancellation requested", sink.first);
    var s1 := Transition(s, id, CancelPending, "cancellation requested", sink.first).state;
    SameRecords(s, s1);
    if reply.Reported? {
      var reason := OrElse(reply.snapshot.reason, "cancellation result");
      TransitionKeepsRecords(s1, id, reply.snapshot.status, reason, sink.second);
      var s2 := Transition(s1, id, reply.snapshot.status, reason, sink.second).state;
      SameRecords(s1, s2);
      StoreFills(s1, id, reply.snapshot);
      StoreFills(s2, id, reply.snapshot);
    }
  }

  /** In every run, whatever the broker and the sink do, the recorded fills are
      exactly those of the stored snapshots. */
  lemma {:induction false} FillsAlwaysMatch(calls: seq<Call>)
    ensures FillsMatch(Run(calls))
    decreases |calls|
  {
    hide Submit, Refresh, RecoverUnknown, Rehydrate, Cancel, FillsMatch;
    if calls == [] {
      InitialFillsMatch();
    } else {
      var s := Run(calls[..|calls| - 1]);
      FillsAlwaysMatch(calls[..|calls| - 1]);
      match calls[|calls| - 1] {
        case SubmitCall(order, reply, sink, latency) => SubmitFills(s, order, reply, sink, latency);
        case RefreshCall(id, reply, sink) => RefreshFills(s, id, reply, sink);
        case RecoverCall(id, reply, sink) => RecoverFills(s, id, reply, sink);
        case RehydrateCall(ids) => RehydrateFills(s, ids);
        case CancelCall(id, reply, sink) => CancelFills(s, id, reply, sink);
      }
    }
  }

  lemma InitialFillsMatch()
    ensures FillsMatch(INITIAL)
  {
  }

  // ------------------------------------------------------------ broker silence

  /** The broker only reports statuses of its own side of the wire. */
  predicate BrokerSideReply(reply: Reply) {
    reply.Reported? ==> reply.snapshot.status !in LOCAL_STATUSES
  }

  predicate BrokerSide(call: Call) {
    match call
    case SubmitCall(_, reply, _, _) => BrokerSideReply(reply)
    case RefreshCall(_, reply, _) => BrokerSideReply(reply)
    case RecoverCall(_, reply, _) => BrokerSideReply(reply)
    case RehydrateCall(ids) => forall i :: 0 <= i < |ids| ==> BrokerSideReply(ids[i].1)
    case CancelCall(_, reply, _) => BrokerSideReply(reply)
  }

  /** A stored order's status is one from which UNKNOWN can be recorded. */
  predicate CanGoUnknown(c: Cell) {
    c.order.Some? ==> c.status.Some? && c.status.value !in LOCAL_STATUSES
  }

  lemma StepCanGoUnknown(before: Cell, call: Call, id: string, after: Cell)
    requires BrokerSide(call) && CanGoUnknown(before) && Effect(before, call, id, after)
    ensures CanGoUnknown(after)
  {
  }

  lemma {:induction false} KnownOrdersCanGoUnknown(calls: seq<Call>, id: string)
    requires forall i :: 0 <= i < |calls| ==> BrokerSide(calls[i])
    ensures CanGoUnknown(CellOf(Run(calls), id))
    decreases |calls|
  {
    hide Step, Effect, AllowedTargets;
    if calls != [] {
      var n := |calls| - 1;
      KnownOrdersCanGoUnknown(calls[..n], id);
      RunTracked(calls[..n]);
      StepCell(Run(calls[..n]), calls[n], id);
      StepCanGoUnknown(CellOf(Run(calls[..n]), id), calls[n], id, CellOf(Run(calls), id));
    }
  }

  /** What a silent broker does to one known order: `refresh` returns exactly
      when the id is usable, its status is not a purely local one and the sink
      takes the event; it then holds UNKNOWN in both maps, with the quantity
      filled so far and the fills untouched. */
  lemma SilentRefresh(s: EngineState, id: string, sink: Sink)
    requires id in s.orders && id in s.states && !Blank(id)
    ensures var d := Refresh(s, id, NoRecord, sink);
            && (d.outcome.Ok? <==> s.states[id] !in LOCAL_STATUSES && (s.states[id].Unknown? || !sink.first))
            && (d.outcome.Ok? ==>
                  && d.state.states[id] == Unknown && d.state.orders[id].status == Unknown
                  && d.outcome.value == d.state.orders[id]
                  && d.state.orders[id].filledQuantity == s.orders[id].filledQuantity
                  && d.state.orders[id].requestedQuantity == s.orders[id].requestedQuantity
                  && d.state.orders[id].fills == s.orders[id].fills
                  && d.state.fills == s.fills)
  {
  }

  /** Broker silence is total and fail-closed: while the broker reports only
      broker-side statuses, `refresh` of a known order that it no longer knows
      never raises and always ends in UNKNOWN. */
  lemma BrokerSilenceIsFailClosed(calls: seq<Call>, id: string)
    requires forall i :: 0 <= i < |calls| ==> BrokerSide(calls[i]) && WellFormed(calls[i])
    requires id in Run(calls).orders
    ensures var s := Run(calls);
            var d := Refresh(s, id, NoRecord, HEALTHY_SINK);
            && d.outcome.Ok?
            && d.state.states[id] == Unknown && d.state.orders[id].status == Unknown
            && d.state.orders[id].filledQuantity == s.orders[id].filledQuantity
            && d.state.fills == s.fills
  {
    hide Run, Refresh, Blank, WellFormed, BrokerSide;
    RunTracked(calls);
    StoredSnapshotsAreConstructible(calls);
    KnownOrdersCanGoUnknown(calls, id);
    SilentRefresh(Run(calls), id, HEALTHY_SINK);
  }
}
