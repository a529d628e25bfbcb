/** Several callers of `run` on one orchestrator at once. The store's methods are
    atomic, so registering a run is one step; the stages of different runs
    interleave in any order. */
module ConcurrentRuns {
  import opened Common
  import opened Orchestration

  /** A caller has not registered its run yet, has registered it, has gone
      through the loop up to stage `n`, or has returned. */
  datatype Phase = Waiting | Registered(c: RunContext) | Going(c: RunContext, n: nat, p: Progress) | Over

  datatype Caller = Caller(request: Request, phase: Phase)

  datatype System = System(state: State, callers: seq<Caller>)

  function SetPhase(s: System, t: nat, phase: Phase): System
    requires t < |s.callers|
  {
    s.(callers := s.callers[t := s.callers[t].(phase := phase)])
  }

  /** A run under way moves on: its record is replaced, the handlers it called
      are noted, and its caller is in a new phase. */
  function Advance(s: System, t: nat, c: RunContext, r: RunRecord, made: seq<Stage>, phase: Phase): System
    requires t < |s.callers|
  {
    var store := s.state.store.(runs := s.state.store.runs[c.runId := r]);
    SetPhase(s.(state := State(store, s.state.issued, s.state.calls + Called(c, made))), t, phase)
  }

  /** Refuse the request, find its key taken, or register its run. */
  function Enter(s: System, t: nat, q: Request): System
    requires t < |s.callers|
  {
    if !q.aware || Normalize(q.symbol) == "" then SetPhase(s, t, Over)
    else
      var c := ContextOf(s.state, q);
      match Create(s.state.store, c)
      case None => SetPhase(s, t, Over)
      case Some((store, record)) =>
        if record.context.runId != c.runId then SetPhase(s, t, Over)
        else SetPhase(s.(state := State(store, s.state.issued + 1, s.state.calls)), t, Registered(c))
  }

  /** The next atomic step of caller `t`: refusing or registering its request,
      entering the loop, one stage, or the end of the try statement. A stage
      only touches the record and the handlers of its own run. */
  function Step(configured: set<Stage>, s: System, t: nat): System {
    if t >= |s.callers| then s
    else
      var q := s.callers[t].request;
      match s.callers[t].phase
      case Waiting => Enter(s, t, q)
      case Registered(c) =>
        var running := c.(status := Running);
        Advance(s, t, running, RunRecord(running, []), [], Going(running, 0, Begin(q)))
      case Going(c, n, p) =>
        if n < |ORDER| && p.failure.None? then
          var next := StageStep(configured, q, c, p, ORDER[n]);
          Advance(s, t, c, RunRecord(c, next.stored), NewCalls(p, next), Going(c, n + 1, next))
        else Advance(s, t, c, Conclude(q, c, p).0, [], Over)
      case Over => s
  }

  /** The handlers that a stage called. */
  function NewCalls(before: Progress, after: Progress): seq<Stage> {
    if |before.called| <= |after.called| then after.called[|before.called|..] else []
  }

  function RunSchedule(configured: set<Stage>, requests: seq<Request>, schedule: seq<nat>): System {
    if schedule == [] then System(EMPTY,
      seq(|requests|, i requires 0 <= i < |requests| => Caller(requests[i], Waiting)))
    else Step(configured, RunSchedule(configured, requests, schedule[..|schedule| - 1]), schedule[|schedule| - 1])
  }

  // ------------------------------------------------------------ the invariant

  predicate Active(p: Phase) {
    p.Registered? || p.Going?
  }

  /** A caller under way owns the record of its run, which shows exactly how far
      the loop has come, and that is how far it would have come alone. */
  ghost predicate CallerOk(configured: set<Stage>, s: System, t: nat)
    requires t < |s.callers|
  {
    var q, phase := s.callers[t].request, s.callers[t].phase;
    match phase
    case Waiting => true
    case Over => true
    case Registered(c) => Owns(s, c, q) && s.state.store.runs[c.runId] == RunRecord(c, [])
                          && NoCallsYet(s, c.runId, 0)
    case Going(c, n, p) =>
      && Owns(s, c, q) && n <= |ORDER| && p == Stages(configured, q, c, n)
      && s.state.store.runs[c.runId] == RunRecord(c, p.stored) && NoCallsYet(s, c.runId, n)
  }

  ghost predicate Owns(s: System, c: RunContext, q: Request) {
    && c.runId in s.state.store.runs && c.mode == q.mode
    && KeyOf(c) in s.state.store.idempotency && s.state.store.idempotency[KeyOf(c)] == c.runId
  }

  /** The run has called no handler of stage `n` or a later one. */
  ghost predicate NoCallsYet(s: System, id: nat, n: nat) {
    forall i :: 0 <= i < |s.state.calls| && s.state.calls[i].1 == id ==> Position(s.state.calls[i].2) < n
  }

  ghost predicate OwnedBy(s: System, t: nat, id: nat)
    requires t < |s.callers|
  {
    Active(s.callers[t].phase) && s.callers[t].phase.c.runId == id
  }

  ghost predicate Owned(s: System, id: nat) {
    exists t :: 0 <= t < |s.callers| && OwnedBy(s, t, id)
  }

  ghost predicate Safe(configured: set<Stage>, s: System) {
    && Indexed(s.state) && Ascending(s.state.calls)
    && (forall i :: 0 <= i < |s.state.calls| ==> CallOk(configured, s.state, s.state.calls[i]))
    && (forall t :: 0 <= t < |s.callers| ==> CallerOk(configured, s, t))
    && (forall t, u, id :: 0 <= t < u < |s.callers| && OwnedBy(s, t, id) ==> !OwnedBy(s, u, id))
    && (forall id :: id in s.state.store.runs ==> Owned(s, id) || RecordOk(configured, id, s.state.store.runs[id]))
  }

  /** What a step of `t` may change besides its own phase: the record of its own
      run, calls of its own run, and new index entries. */
  ghost predicate OwnRunOnly(s: System, after: System, t: nat, mine: nat) {
    && |after.callers| == |s.callers| && t < |s.callers|
    && (forall u :: 0 <= u < |s.callers| && u != t ==> after.callers[u] == s.callers[u])
    && (forall id :: id in s.state.store.runs && id != mine ==>
          id in after.state.store.runs && after.state.store.runs[id] == s.state.store.runs[id])
    && (forall k :: k in s.state.store.idempotency ==>
          k in after.state.store.idempotency && after.state.store.idempotency[k] == s.state.store.idempotency[k])
    && s.state.calls <= after.state.calls
    && forall i :: |s.state.calls| <= i < |after.state.calls| ==> after.state.calls[i].1 == mine
  }

  lemma OthersKeep(configured: set<Stage>, s: System, after: System, t: nat, u: nat, mine: nat)
    requires OwnRunOnly(s, after, t, mine) && u < |s.callers| && u != t
    requires CallerOk(configured, s, u) && !OwnedBy(s, u, mine)
    ensures CallerOk(configured, after, u)
  {
    hide Stages, KeyOf, Position;
    if Active(s.callers[u].phase) {
      var id := s.callers[u].phase.c.runId;
      forall n | NoCallsYet(s, id, n) ensures NoCallsYet(after, id, n) {
        forall i | 0 <= i < |after.state.calls| && after.state.calls[i].1 == id
          ensures Position(after.state.calls[i].2) < n
        {
          assert i < |s.state.calls| && s.state.calls[i] == after.state.calls[i];
        }
      }
    }
  }

  /** Who owns what after a step in which only `t` may have started or stopped
      owning `mine`. */
  lemma OwnersKeep(configured: set<Stage>, s: System, after: System, t: nat, mine: nat)
    requires Safe(configured, s) && OwnRunOnly(s, after, t, mine)
    requires forall u :: 0 <= u < |s.callers| && u != t ==> !OwnedBy(s, u, mine)
    requires forall id :: OwnedBy(after, t, id) ==> id == mine
    requires forall id :: OwnedBy(s, t, id) ==> id == mine
    requires forall id :: id in after.state.store.runs ==> id in s.state.store.runs || id == mine
    requires mine in after.state.store.runs ==>
               OwnedBy(after, t, mine) || RecordOk(configured, mine, after.state.store.runs[mine])
    ensures forall a, b, id :: 0 <= a < b < |after.callers| && OwnedBy(after, a, id) ==> !OwnedBy(after, b, id)
    ensures forall id :: id in after.state.store.runs ==>
                           Owned(after, id) || RecordOk(configured, id, after.state.store.runs[id])
  {
    hide RecordOk, CallerOk, Indexed, CallOk, Ascending;
    forall a, b, id | 0 <= a < b < |after.callers| && OwnedBy(after, a, id) ensures !OwnedBy(after, b, id) {
      if a != t && b != t {
        assert OwnedBy(s, a, id);
        assert OwnedBy(after, b, id) ==> OwnedBy(s, b, id);
      } else if a == t {
        assert OwnedBy(after, b, mine) == OwnedBy(s, b, mine);
      } else {
        assert OwnedBy(s, a, id);
      }
    }
    forall id | id in after.state.store.runs ensures Owned(after, id)
      || RecordOk(configured, id, after.state.store.runs[id]) {
      if id == mine {
        assert OwnedBy(after, t, mine) ==> Owned(after, mine);
      } else if Owned(s, id) {
        var u :| 0 <= u < |s.callers| && OwnedBy(s, u, id);
        assert u != t && OwnedBy(after, u, id);
      }
    }
  }

  // ------------------------------------------------------------ one step

  lemma RecordKeepsIndexed(s: State, c: RunContext, r: RunRecord, calls: seq<(Key, nat, Stage)>)
    requires Indexed(s) && c.runId in s.store.runs
    requires r.context.runId == c.runId && KeyOf(r.context) == KeyOf(s.store.runs[c.runId].context)
    ensures Indexed(State(s.store.(runs := s.store.runs[c.runId := r]), s.issued, calls))
  {
    hide KeyOf;
  }

  /** The new run gets a fresh id, and its key its first index entry. */
  lemma EnterFacts(s: System, t: nat, q: Request)
    requires Indexed(s.state) && t < |s.callers|
    ensures if Starts(s.state, q) then
              var c := ContextOf(s.state, q);
              && c.runId !in s.state.store.runs && KeyOf(c) !in s.state.store.idempotency
              && Enter(s, t, q)
                 == SetPhase(System(State(Runs(s.state.store.runs[c.runId := RunRecord(c, [])],
                                               s.state.store.idempotency[KeyOf(c) := c.runId]),
                                          s.state.issued + 1, s.state.calls), s.callers), t, Registered(c))
            else Enter(s, t, q) == SetPhase(s, t, Over)
  {
    hide Normalize;
  }

  lemma NewRunIsIndexed(s: State, c: RunContext)
    requires Indexed(s) && c.runId == s.issued && KeyOf(c) !in s.store.idempotency
    ensures Indexed(State(Runs(s.store.runs[c.runId := RunRecord(c, [])], s.store.idempotency[KeyOf(c) := c.runId]),
                          s.issued + 1, s.calls))
  {
    hide KeyOf;
  }

  /** Everything a step of `t` has to show for its own run. */
  lemma Assemble(configured: set<Stage>, s: System, after: System, t: nat, mine: nat)
    requires Safe(configured, s) && OwnRunOnly(s, after, t, mine)
    requires forall u :: 0 <= u < |s.callers| && u != t ==> !OwnedBy(s, u, mine)
    requires (forall id :: OwnedBy(after, t, id) ==> id == mine) && (forall id :: OwnedBy(s, t, id) ==> id == mine)
    requires forall id :: id in after.state.store.runs ==> id in s.state.store.runs || id == mine
    requires mine in after.state.store.runs ==>
               OwnedBy(after, t, mine) || RecordOk(configured, mine, after.state.store.runs[mine])
    requires Indexed(after.state) && Ascending(after.state.calls) && CallerOk(configured, after, t)
    requires forall i :: |s.state.calls| <= i < |after.state.calls| ==>
             CallOk(configured, after.state, after.state.calls[i])
    ensures Safe(configured, after)
  {
    hide RecordOk, Indexed, Ascending, CallerOk;
    OwnersKeep(configured, s, after, t, mine);
    forall u | 0 <= u < |after.callers| ensures CallerOk(configured, after, u) {
      if u != t {
        OthersKeep(configured, s, after, t, u, mine);
      }
    }
    forall i | 0 <= i < |after.state.calls| ensures CallOk(configured, after.state, after.state.calls[i]) {
      if i < |s.state.calls| {
        assert CallOk(configured, s.state, s.state.calls[i]) && after.state.calls[i] == s.state.calls[i];
      }
    }
  }

  /** Every owned id has its run, and every call too. */
  lemma IdsAreKnown(configured: set<Stage>, s: System, id: nat)
    requires Safe(configured, s) && id !in s.state.store.runs
    ensures forall u :: 0 <= u < |s.callers| ==> !OwnedBy(s, u, id)
    ensures NoCallsYet(s, id, 0)
  {
    hide Stages, RecordOk, Ascending;
    forall u | 0 <= u < |s.callers| ensures !OwnedBy(s, u, id) {
      assert CallerOk(configured, s, u);
    }
    forall i | 0 <= i < |s.state.calls| ensures s.state.calls[i].1 != id {
      assert CallOk(configured, s.state, s.state.calls[i]);
    }
  }

  lemma EnterIsSafe(configured: set<Stage>, s: System, t: nat)
    requires Safe(configured, s) && t < |s.callers| && s.callers[t].phase.Waiting?
    ensures Safe(configured, Step(configured, s, t))
  {
    hide Enter, Safe, Starts, KeyOf;
    var q := s.callers[t].request;
    SafeIsIndexed(configured, s);
    EnterFacts(s, t, q);
    if Starts(s.state, q) {
      NewRunIsSafe(configured, s, t, ContextOf(s.state, q));
    } else {
      RefusalIsSafe(configured, s, t);
    }
  }

  lemma SafeIsIndexed(configured: set<Stage>, s: System)
    requires Safe(configured, s)
    ensures Indexed(s.state)
  {
    hide Indexed;
  }

  lemma RefusalIsSafe(configured: set<Stage>, s: System, t: nat)
    requires Safe(configured, s) && t < |s.callers| && s.callers[t].phase.Waiting?
    ensures Safe(configured, SetPhase(s, t, Over))
  {
    hide RecordOk, Stages, KeyOf, Indexed, Ascending, CallOk, NoCallsYet;
    SafeIsIndexed(configured, s);
    FreshId(s.state);
    IdsAreKnown(configured, s, s.state.issued);
    Assemble(configured, s, SetPhase(s, t, Over), t, s.state.issued);
  }

  lemma FreshId(s: State)
    requires Indexed(s)
    ensures s.issued !in s.store.runs
  {
    hide KeyOf;
  }

  lemma NewRunIsSafe(configured: set<Stage>, s: System, t: nat, c: RunContext)
    requires Safe(configured, s) && t < |s.callers| && s.callers[t].phase.Waiting?
    requires c.runId == s.state.issued && KeyOf(c) !in s.state.store.idempotency && c.mode == s.callers[t].request.mode
    ensures var store := Runs(s.state.store.runs[c.runId := RunRecord(c, [])],
            s.state.store.idempotency[KeyOf(c) := c.runId]);
            Safe(configured, SetPhase(System(State(store, s.state.issued + 1, s.state.calls), s.callers), t,
              Registered(c)))
  {
    hide RecordOk, Stages, KeyOf, Indexed, Ascending, CallOk, Position;
    var store := Runs(s.state.store.runs[c.runId := RunRecord(c, [])], s.state.store.idempotency[KeyOf(c) := c.runId]);
    var after := SetPhase(System(State(store, s.state.issued + 1, s.state.calls), s.callers), t, Registered(c));
    SafeIsIndexed(configured, s);
    FreshId(s.state);
    IdsAreKnown(configured, s, c.runId);
    NewRunIsIndexed(s.state, c);
    Assemble(configured, s, after, t, c.runId);
  }

  /** The caller under way is the only owner of its run. */
  lemma SoleOwner(configured: set<Stage>, s: System, t: nat)
    requires Safe(configured, s) && t < |s.callers| && Active(s.callers[t].phase)
    ensures forall u :: 0 <= u < |s.callers| && u != t ==> !OwnedBy(s, u, s.callers[t].phase.c.runId)
  {
    hide Stages, RecordOk, Ascending, Indexed, CallOk, CallerOk;
    var mine := s.callers[t].phase.c.runId;
    assert OwnedBy(s, t, mine);
    forall u | 0 <= u < |s.callers| && u != t ensures !OwnedBy(s, u, mine) {
    }
  }

  /** At most one call of stage `n`, after those of the run's earlier stages. */
  lemma CallsStayInOrder(s: State, c: RunContext, n: nat, made: seq<Stage>, configured: set<Stage>)
    requires n < |ORDER| && (made == [] || made == [ORDER[n]]) && Ascending(s.calls)
    requires forall i :: 0 <= i < |s.calls| ==> CallOk(configured, s, s.calls[i])
    requires KeyOf(c) in s.store.idempotency && s.store.idempotency[KeyOf(c)] == c.runId
    requires forall i :: 0 <= i < |s.calls| && s.calls[i].1 == c.runId ==> Position(s.calls[i].2) < n
    ensures Ascending(s.calls + Called(c, made))
    ensures forall i :: 0 <= i < |s.calls + Called(c, made)| && (s.calls + Called(c, made))[i].1 == c.runId ==>
                          Position((s.calls + Called(c, made))[i].2) < n + 1
  {
    assert Position(ORDER[n]) == n;
    hide KeyOf, Position;
    var calls := s.calls + Called(c, made);
    forall i, j | 0 <= i < j < |calls| && calls[i].0 == calls[j].0 ensures Position(calls[i].2) < Position(calls[j].2) {
      assert CallOk(configured, s, s.calls[i]);
    }
  }

  lemma NewCallsAreOk(configured: set<Stage>, q: Request, c: RunContext, p: Progress, n: nat)
    requires n < |ORDER| && c.mode == q.mode
    ensures var made := NewCalls(p, StageStep(configured, q, c, p, ORDER[n]));
            made == [] || (made == [ORDER[n]] && ORDER[n] in configured && (ORDER[n] == Execution ==> c.mode == Paper))
  {
    hide StageStep;
    StepCalls(configured, q, c, p, ORDER[n]);
  }

  lemma AdvanceTouchesOwnRun(s: System, t: nat, c: RunContext, r: RunRecord, made: seq<Stage>, phase: Phase)
    requires t < |s.callers|
    ensures OwnRunOnly(s, Advance(s, t, c, r, made, phase), t, c.runId)
  {
    hide KeyOf;
  }

  /** Where a run may move: further in the loop, alone as it would, with its
      record kept up; or out of it, with a finished record. */
  ghost predicate MayAdvance(configured: set<Stage>, q: Request, c: RunContext, n: nat, r: RunRecord, made: seq<Stage>,
      phase: Phase) {
    && r.context.runId == c.runId && KeyOf(r.context) == KeyOf(c) && c.mode == q.mode
    && (made == [] || (n < |ORDER| && made == [ORDER[n]] && ORDER[n] in configured
       && (ORDER[n] == Execution ==> c.mode == Paper)))
    && match phase
       case Going(d, m, p) =>
         d == c && n + |made| <= m <= |ORDER| && p == Stages(configured, q, c, m) && r == RunRecord(c, p.stored)
       case Over => RecordOk(configured, c.runId, r)
       case _ => false
  }

  lemma AdvanceIsSafe(configured: set<Stage>, s: System, t: nat, c: RunContext, n: nat, r: RunRecord, made: seq<Stage>,
      phase: Phase)
    requires Safe(configured, s) && t < |s.callers| && OwnedBy(s, t, c.runId)
    requires Owns(s, c, s.callers[t].request) && KeyOf(s.state.store.runs[c.runId].context) == KeyOf(c)
    requires NoCallsYet(s, c.runId, n) && MayAdvance(configured, s.callers[t].request, c, n, r, made, phase)
    ensures Safe(configured, Advance(s, t, c, r, made, phase))
  {
    hide RecordOk, Stages, KeyOf, Position, OwnRunOnly, Indexed, Ascending, NoCallsYet, CallOk;
    var after := Advance(s, t, c, r, made, phase);
    SoleOwner(configured, s, t);
    AdvanceTouchesOwnRun(s, t, c, r, made, phase);
    RecordKeepsIndexed(s.state, c, r, s.state.calls + Called(c, made));
    OrderedCalls(configured, s, after, c, n, made);
    if phase.Going? {
      LaterStage(after, c.runId, n + |made|, phase.n);
    }
    Assemble(configured, s, after, t, c.runId);
  }

  lemma LaterStage(s: System, id: nat, n: nat, m: nat)
    requires NoCallsYet(s, id, n) && n <= m
    ensures NoCallsYet(s, id, m)
  {
    hide Position;
  }

  lemma OrderedCalls(configured: set<Stage>, s: System, after: System, c: RunContext, n: nat, made: seq<Stage>)
    requires Safe(configured, s) && NoCallsYet(s, c.runId, n) && c.runId in s.state.store.runs
    requires KeyOf(c) in s.state.store.idempotency && s.state.store.idempotency[KeyOf(c)] == c.runId
    requires after.state.calls == s.state.calls + Called(c, made)
             && after.state.store.idempotency == s.state.store.idempotency
    requires made == [] || (n < |ORDER| && made == [ORDER[n]] && ORDER[n] in configured
             && (ORDER[n] == Execution ==> c.mode == Paper))
    ensures Ascending(after.state.calls) && NoCallsYet(after, c.runId, n + |made|)
    ensures forall i :: |s.state.calls| <= i < |after.state.calls| ==>
            CallOk(configured, after.state, after.state.calls[i])
  {
    hide RecordOk, CallerOk, Indexed, Position, CallOk, Ascending;
    if made == [] {
      assert after.state.calls == s.state.calls;
    } else {
      CallsStayInOrder(s.state, c, n, made, configured);
      NewCallIsOk(configured, after.state, c, made[0]);
    }
  }

  lemma NewCallIsOk(configured: set<Stage>, s: State, c: RunContext, stage: Stage)
    requires KeyOf(c) in s.store.idempotency && s.store.idempotency[KeyOf(c)] == c.runId
    requires stage in configured && (stage == Execution ==> c.mode == Paper)
    ensures CallOk(configured, s, (KeyOf(c), c.runId, stage))
  {
  }

  lemma BeginLoopIsSafe(configured: set<Stage>, s: System, t: nat)
    requires Safe(configured, s) && t < |s.callers| && s.callers[t].phase.Registered?
    ensures Safe(configured, Step(configured, s, t))
  {
    hide RecordOk, Safe, Advance;
    CallerIsOk(configured, s, t);
    var q, c := s.callers[t].request, s.callers[t].phase.c;
    var running := c.(status := Running);
    AdvanceIsSafe(configured, s, t, running, 0, RunRecord(running, []), [], Going(running, 0, Begin(q)));
  }

  /** One stage. */
  lemma StageIsSafe(configured: set<Stage>, s: System, t: nat)
    requires Safe(configured, s) && t < |s.callers| && s.callers[t].phase.Going?
    requires s.callers[t].phase.n < |ORDER| && s.callers[t].phase.p.failure.None?
    ensures Safe(configured, Step(configured, s, t))
  {
    hide RecordOk, Safe, Advance, StageStep, Stages, NewCalls, NoCallsYet;
    CallerIsOk(configured, s, t);
    var q := s.callers[t].request;
    var Going(c, n, p) := s.callers[t].phase;
    NextStage(configured, q, c, n);
    var next := StageStep(configured, q, c, p, ORDER[n]);
    NewCallsAreOk(configured, q, c, p, n);
    AdvanceIsSafe(configured, s, t, c, n, RunRecord(c, next.stored), NewCalls(p, next), Going(c, n + 1, next));
  }

  /** The end: the record is the one this run would have left alone. */
  lemma EndIsSafe(configured: set<Stage>, s: System, t: nat)
    requires Safe(configured, s) && t < |s.callers| && s.callers[t].phase.Going?
    requires s.callers[t].phase.n == |ORDER| || s.callers[t].phase.p.failure.Some?
    ensures Safe(configured, Step(configured, s, t))
    ensures var Going(c, n, p) := s.callers[t].phase;
            var q := s.callers[t].request;
            Step(configured, s, t).state.store.runs[c.runId] == Conclude(q, c, Stages(configured, q, c, |ORDER|)).0
  {
    hide GoodTrace, Safe, Stages, Conclude, NoCallsYet;
    CallerIsOk(configured, s, t);
    var q := s.callers[t].request;
    var Going(c, n, p) := s.callers[t].phase;
    StagesStop(configured, q, c, n);
    ConcludeFacts(configured, q, c);
    AdvanceIsSafe(configured, s, t, c, n, Conclude(q, c, p).0, [], Over);
  }

  lemma StepIsSafe(configured: set<Stage>, s: System, t: nat)
    requires Safe(configured, s)
    ensures Safe(configured, Step(configured, s, t))
  {
    if t < |s.callers| {
      hide Step, Safe, Stages;
      match s.callers[t].phase
      case Waiting => EnterIsSafe(configured, s, t);
      case Registered(_) => BeginLoopIsSafe(configured, s, t);
      case Going(_, n, p) =>
        CallerIsOk(configured, s, t);
        if n < |ORDER| && p.failure.None? {
          StageIsSafe(configured, s, t);
        } else {
          EndIsSafe(configured, s, t);
        }
      case Over => OverStays(configured, s, t);
    }
  }

  lemma CallerIsOk(configured: set<Stage>, s: System, t: nat)
    requires Safe(configured, s) && t < |s.callers|
    ensures CallerOk(configured, s, t)
  {
    hide CallerOk;
  }

  lemma OverStays(configured: set<Stage>, s: System, t: nat)
    requires t < |s.callers| && s.callers[t].phase.Over?
    ensures Step(configured, s, t) == s
  {
  }

  // ------------------------------------------------------------ all schedules

  lemma {:induction false} EveryScheduleIsSafe(configured: set<Stage>, requests: seq<Request>, schedule: seq<nat>)
    ensures Safe(configured, RunSchedule(configured, requests, schedule))
  {
    hide Step, Safe;
    if schedule == [] {
      StartIsSafe(configured, requests);
    } else {
      var n := |schedule| - 1;
      EveryScheduleIsSafe(configured, requests, schedule[..n]);
      StepIsSafe(configured, RunSchedule(configured, requests, schedule[..n]), schedule[n]);
    }
  }

  lemma StartIsSafe(configured: set<Stage>, requests: seq<Request>)
    ensures Safe(configured, RunSchedule(configured, requests, []))
  {
  }

  /** However the steps of any number of callers interleave: all handler calls
      for one decision point belong to one run, no stage's handler is called
      twice for it, and they come in the canonical order; execution is paper
      only; and a run that is not under way any more is finished, with a good
      trace. */
  lemma OneRunPerDecisionPointUnderEveryInterleaving(configured: set<Stage>, requests: seq<Request>, schedule: seq<nat>)
    ensures var s := RunSchedule(configured, requests, schedule);
            && (forall i, j :: 0 <= i < j < |s.state.calls| && s.state.calls[i].0 == s.state.calls[j].0 ==>
                  s.state.calls[i].1 == s.state.calls[j].1
                    && Position(s.state.calls[i].2) < Position(s.state.calls[j].2))
            && (forall i :: 0 <= i < |s.state.calls| ==>
                  s.state.calls[i].2 in configured
                    && (s.state.calls[i].2 == Execution ==> s.state.calls[i].0.mode == Paper))
            && (forall id :: id in s.state.store.runs ==>
                  Owned(s, id) || RecordOk(configured, id, s.state.store.runs[id]))
  {
    EveryScheduleIsSafe(configured, requests, schedule);
    var s := RunSchedule(configured, requests, schedule);
    hide RunSchedule, Indexed, CallerOk, RecordOk;
    forall i | 0 <= i < |s.state.calls|
      ensures CallOk(configured, s.state, s.state.calls[i])
    {
    }
  }
}
