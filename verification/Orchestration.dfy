/** The automation orchestrator and its run store. A call of `run` executes the
    configured stages in their fixed order, at most once per decision point;
    every event is stored before it is published, and both the handlers and the
    subscribers of the event bus may raise. */
module Orchestration {
  import opened Common

  datatype Mode = Paper | Shadow | Readiness
  datatype RunStatus = Created | Running | Succeeded | Failed | Rejected
  datatype Stage =
    | Data | Research | Market | Analysis | Prediction | Strategy | Risk | Safety | Execution | Monitoring | Learning
  datatype EventType = StageSkipped | StageStarted | StageCompleted | RunFailed

  const ORDER: seq<Stage> :=
    [Data, Research, Market, Analysis, Prediction, Strategy, Risk, Safety, Execution, Monitoring]

  const TIMEFRAME := 5

  datatype StageEvent = StageEvent(runId: nat, stage: Stage, kind: EventType, detail: string)

  /** `timestamp` is the decision instant in UTC. */
  datatype RunContext = RunContext(runId: nat, timestamp: int, symbol: string, timeframe: int, mode: Mode,
    status: RunStatus)

  /** What the idempotency key is a digest of. */
  datatype Key = Key(symbol: string, timestamp: int, timeframe: int, mode: Mode)

  function KeyOf(c: RunContext): Key {
    Key(c.symbol, c.timestamp, c.timeframe, c.mode)
  }

  datatype RunRecord = RunRecord(context: RunContext, events: seq<StageEvent>)

  datatype Runs = Runs(runs: map<nat, RunRecord>, idempotency: map<Key, nat>)

  // ------------------------------------------------------------ the store

  /** `create`: the record of the run that already owns the key, or a new one.
      An index entry without its run raises KeyError. */
  function Create(s: Runs, c: RunContext): Option<(Runs, RunRecord)> {
    if KeyOf(c) in s.idempotency then
      var existing := s.idempotency[KeyOf(c)];
      if existing in s.runs then Some((s, s.runs[existing])) else None
    else
      var record := RunRecord(c, []);
      Some((Runs(s.runs[c.runId := record], s.idempotency[KeyOf(c) := c.runId]), record))
  }

  function UpdateContext(s: Runs, c: RunContext): Option<Runs> {
    if c.runId in s.runs then Some(s.(runs := s.runs[c.runId := s.runs[c.runId].(context := c)])) else None
  }

  function AppendEvent(s: Runs, e: StageEvent): Option<Runs> {
    if e.runId in s.runs then
      var record := s.runs[e.runId];
      Some(s.(runs := s.runs[e.runId := record.(events := record.events + [e])]))
    else None
  }

  // ------------------------------------------------------------ one run

  type Payload = map<string, string>

  /** A stage handler returns a value or raises with a message. */
  type Handler = (Stage, RunContext, Payload) -> Result<string, string>

  /** One call of `run`. The bus answers, for the n-th event of the run, whether
      a subscriber raises while it is published. */
  datatype Request = Request(
    symbol: string, timestamp: int, aware: bool, mode: Mode, inputs: Payload, handler: Handler, bus: nat -> bool)

  function StageKey(stage: Stage): string {
    match stage
    case Data => "data"
    case Research => "research"
    case Market => "market"
    case Analysis => "analysis"
    case Prediction => "prediction"
    case Strategy => "strategy"
    case Risk => "risk"
    case Safety => "safety"
    case Execution => "execution"
    case Monitoring => "monitoring"
    case Learning => "learning"
  }

  const BUS_ERROR := "subscriber raised"
  const GATE_ERROR := "execution stage is only available in paper mode"

  /** How far the try block has come: the events it will return, the events
      stored so far, the handlers it has called, and the exception, if any. */
  datatype Progress = Progress(
    events: seq<StageEvent>, stored: seq<StageEvent>, outputs: map<Stage, string>, payload: Payload,
    called: seq<Stage>, failure: Option<string>)

  function Begin(q: Request): Progress {
    Progress([], [], map[], q.inputs, [], None)
  }

  /** `_emit` followed by `events.append`. */
  function Emit(q: Request, p: Progress, e: StageEvent): Progress {
    var stored := p.(stored := p.stored + [e]);
    if q.bus(|p.stored|) then stored.(failure := Some(BUS_ERROR)) else stored.(events := p.events + [e])
  }

  /** One iteration of the stage loop. */
  function StageStep(configured: set<Stage>, q: Request, c: RunContext, p: Progress, stage: Stage): Progress {
    if stage !in configured then Emit(q, p, StageEvent(c.runId, stage, StageSkipped, "handler_not_configured"))
    else if stage == Execution && q.mode != Paper then p.(failure := Some(GATE_ERROR))
    else
      var started := Emit(q, p, StageEvent(c.runId, stage, StageStarted, ""));
      if started.failure.Some? then started
      else
        var called := started.(called := started.called + [stage]);
        match q.handler(stage, c, called.payload)
        case Err(message) => called.(failure := Some(message))
        case Ok(value) =>
          Emit(q, called.(outputs := called.outputs[stage := value],
            payload := called.payload[StageKey(stage) := value]),
               StageEvent(c.runId, stage, StageCompleted, ""))
  }

  /** The first `n` iterations of the loop, up to the first exception. */
  function Stages(configured: set<Stage>, q: Request, c: RunContext, n: nat): Progress
    requires n <= |ORDER|
  {
    if n == 0 then Begin(q)
    else
      var before := Stages(configured, q, c, n - 1);
      if before.failure.Some? then before else StageStep(configured, q, c, before, ORDER[n - 1])
  }

  datatype RunResult = RunResult(run: RunContext, events: seq<StageEvent>, outputs: map<Stage, string>,
    error: Option<string>)

  datatype RunError = NaiveTimestamp | EmptySymbol | BusRaised | UnknownRun

  /** The orchestrator with its store; `issued` run ids are fresh, and `calls`
      lists every handler invocation ever made. */
  datatype State = State(store: Runs, issued: nat, calls: seq<(Key, nat, Stage)>)

  const EMPTY: State := State(Runs(map[], map[]), 0, [])

  function Called(c: RunContext, stages: seq<Stage>): seq<(Key, nat, Stage)> {
    seq(|stages|, i requires 0 <= i < |stages| => (KeyOf(c), c.runId, stages[i]))
  }

  /** The end of the try statement, on both paths: the last record written, and
      the result, unless publishing RUN_FAILED raised. */
  function Conclude(q: Request, c: RunContext, p: Progress): (RunRecord, Result<RunResult, RunError>) {
    if p.failure.None? then
      var done := c.(status := Succeeded);
      (RunRecord(done, p.stored), Ok(RunResult(done, p.events, p.outputs, None)))
    else
      var done := c.(status := Failed);
      var last := StageEvent(c.runId, Monitoring, RunFailed, p.failure.value);
      (RunRecord(done, p.stored + [last]),
       if q.bus(|p.stored|) then Err(BusRaised) else Ok(RunResult(done, p.events + [last], p.outputs, p.failure)))
  }

  function ContextOf(s: State, q: Request): RunContext {
    RunContext(s.issued, q.timestamp, Normalize(q.symbol), TIMEFRAME, q.mode, Created)
  }

  /** `run`. */
  function Run(configured: set<Stage>, s: State, q: Request): (State, Result<RunResult, RunError>) {
    if !q.aware then (s, Err(NaiveTimestamp))
    else if Normalize(q.symbol) == "" then (s, Err(EmptySymbol))
    else
      var c := ContextOf(s, q);
      var issued := s.(issued := s.issued + 1);
      match Create(s.store, c)
      case None => (issued, Err(UnknownRun))
      case Some((created, record)) =>
        if record.context.runId != c.runId then
          (issued, Ok(RunResult(record.context.(status := Rejected), record.events, map[],
            Some("IDEMPOTENT_DUPLICATE"))))
        else
          var running := c.(status := Running);
          var p := Stages(configured, q, running, |ORDER|);
          var (final, result) := Conclude(q, running, p);
          (State(created.(runs := created.runs[c.runId := final]), s.issued + 1, s.calls + Called(c, p.called)), result)
  }

  function RunAll(configured: set<Stage>, requests: seq<Request>): State {
    if requests == [] then EMPTY
    else Run(configured, RunAll(configured, requests[..|requests| - 1]), requests[|requests| - 1]).0
  }

  // ------------------------------------------------------------ the trace of a run

  function Kinds(events: seq<StageEvent>): seq<(Stage, EventType)> {
    seq(|events|, i requires 0 <= i < |events| => (events[i].stage, events[i].kind))
  }

  /** The events of the first `n` stages when nothing goes wrong. */
  function Body(configured: set<Stage>, n: nat): seq<(Stage, EventType)>
    requires n <= |ORDER|
  {
    if n == 0 then []
    else
      var stage := ORDER[n - 1];
      Body(configured, n - 1)
      + (if stage in configured then [(stage, StageStarted), (stage, StageCompleted)] else [(stage, StageSkipped)])
  }

  /** How the trace of a failed run may end after `n` good stages: a refused
      execution stage, a handler that raised, or a subscriber that raised on
      one of the stage's own events. */
  predicate FailedTail(configured: set<Stage>, mode: Mode, n: nat, tail: seq<(Stage, EventType)>, busRaised: bool)
    requires n < |ORDER|
  {
    var stage := ORDER[n];
    if stage !in configured then busRaised && tail == [(stage, StageSkipped)]
    else if stage == Execution && mode != Paper then !busRaised && tail == []
    else tail == [(stage, StageStarted)] || (busRaised && tail == [(stage, StageStarted), (stage, StageCompleted)])
  }

  /** The stored trace of a finished run. */
  ghost predicate GoodTrace(configured: set<Stage>, record: RunRecord) {
    match record.context.status
    case Succeeded => Kinds(record.events) == Body(configured, |ORDER|)
    case Failed =>
      exists n, tail, busRaised ::
        && 0 <= n < |ORDER| && FailedTail(configured, record.context.mode, n, tail, busRaised)
        && Kinds(record.events) == Body(configured, n) + tail + [(Monitoring, RunFailed)]
    case _ => false
  }

  /** All events so far are the run's own, and what will be returned is what
      was stored, exactly as long as no subscriber has raised. */
  ghost predicate Tidy(q: Request, c: RunContext, p: Progress) {
    && (forall i :: 0 <= i < |p.stored| ==> p.stored[i].runId == c.runId)
    && (p.events == p.stored <==> forall i :: 0 <= i < |p.stored| ==> !q.bus(i))
    && (p.failure.None? ==> p.events == p.stored)
  }

  lemma EmitIsTidy(q: Request, c: RunContext, p: Progress, e: StageEvent)
    requires Tidy(q, c, p) && p.failure.None? && e.runId == c.runId
    ensures var after := Emit(q, p, e);
            && Tidy(q, c, after) && after.stored == p.stored + [e]
            && (after.failure.None? ==> after.events == after.stored)
            && (after.failure.Some? ==> after.events != after.stored)
            && after == p.(stored := after.stored, events := after.events, failure := after.failure)
            && Kinds(after.stored) == Kinds(p.stored) + [(e.stage, e.kind)]
  {
  }

  lemma BeginIsTidy(configured: set<Stage>, q: Request, c: RunContext)
    ensures Tidy(q, c, Begin(q)) && Kinds(Begin(q).stored) == Body(configured, 0) + []
  {
  }

  /** The loop up to stage `n`: either every stage so far went through, or the
      run broke in some stage before `n`. */
  lemma {:induction false} StagesTrace(configured: set<Stage>, q: Request, c: RunContext, n: nat)
    returns (k: nat, tail: seq<(Stage, EventType)>)
    requires n <= |ORDER| && c.mode == q.mode
    ensures var p := Stages(configured, q, c, n);
            && k <= n && Tidy(q, c, p) && Kinds(p.stored) == Body(configured, k) + tail
            && (p.failure.None? ==> k == n && tail == [])
            && (p.failure.Some? ==> k < n && FailedTail(configured, q.mode, k, tail, p.events != p.stored))
  {
    hide StageStep, FailedTail, Tidy, Kinds, Body;
    if n == 0 {
      BeginIsTidy(configured, q, c);
      return 0, [];
    }
    k, tail := StagesTrace(configured, q, c, n - 1);
    var before := Stages(configured, q, c, n - 1);
    if before.failure.None? {
      tail := StageTrace(configured, q, c, before, n - 1);
      if Stages(configured, q, c, n).failure.None? {
        k, tail := n, [];
      }
    }
  }

  lemma {:induction false} StageTrace(configured: set<Stage>, q: Request, c: RunContext, p: Progress, n: nat)
    returns (tail: seq<(Stage, EventType)>)
    requires n < |ORDER| && p.failure.None? && c.mode == q.mode && Tidy(q, c, p)
    requires Kinds(p.stored) == Body(configured, n)
    ensures var after := StageStep(configured, q, c, p, ORDER[n]);
            && Tidy(q, c, after) && Kinds(after.stored) == Body(configured, n) + tail
            && (after.failure.None? ==> Kinds(after.stored) == Body(configured, n + 1))
            && (after.failure.Some? ==> FailedTail(configured, q.mode, n, tail, after.events != after.stored))
  {
    assert p.events == p.stored;
    hide Emit, Kinds, Tidy;
    var stage := ORDER[n];
    tail := [];
    if stage !in configured {
      tail := [(stage, StageSkipped)];
      EmitIsTidy(q, c, p, StageEvent(c.runId, stage, StageSkipped, "handler_not_configured"));
    } else if stage != Execution || q.mode == Paper {
      var e := StageEvent(c.runId, stage, StageStarted, "");
      EmitIsTidy(q, c, p, e);
      tail := [(stage, StageStarted)];
      var started := Emit(q, p, e);
      if started.failure.None? && q.handler(stage, c, started.payload).Ok? {
        var value := q.handler(stage, c, started.payload).value;
        var called := started.(called := started.called + [stage], outputs := started.outputs[stage := value],
                               payload := started.payload[StageKey(stage) := value]);
        TidyIgnores(q, c, started, called);
        EmitIsTidy(q, c, called, StageEvent(c.runId, stage, StageCompleted, ""));
        tail := [(stage, StageStarted), (stage, StageCompleted)];
        assert Body(configured, n) + [(stage, StageStarted)] + [(stage, StageCompleted)] == Body(configured, n) + tail;
      } else if started.failure.None? {
        var message := q.handler(stage, c, started.payload).error;
        TidyIgnores(q, c, started, started.(called := started.called + [stage], failure := Some(message)));
      }
    } else {
      TidyIgnores(q, c, p, p.(failure := Some(GATE_ERROR)));
    }
  }

  lemma TidyIgnores(q: Request, c: RunContext, p: Progress, r: Progress)
    requires Tidy(q, c, p) && r.events == p.events && r.stored == p.stored && (r.failure.None? ==> p.failure.None?)
    ensures Tidy(q, c, r)
  {
  }

  // ------------------------------------------------------------ the handlers called

  /** The configured stages among the first `k`, in order. */
  function Callable(configured: set<Stage>, k: nat): seq<Stage>
    requires k <= |ORDER|
  {
    if k == 0 then []
    else Callable(configured, k - 1) + (if ORDER[k - 1] in configured then [ORDER[k - 1]] else [])
  }

  /** Position of a stage in the canonical order; the learning stage is none. */
  function Position(stage: Stage): (i: nat)
    ensures stage != Learning ==> i < |ORDER| && ORDER[i] == stage
  {
    match stage
    case Data => 0
    case Research => 1
    case Market => 2
    case Analysis => 3
    case Prediction => 4
    case Strategy => 5
    case Risk => 6
    case Safety => 7
    case Execution => 8
    case Monitoring => 9
    case Learning => 10
  }

  lemma {:induction false} CallableAscends(configured: set<Stage>, k: nat)
    requires k <= |ORDER|
    ensures forall i :: 0 <= i < |Callable(configured, k)| ==>
                          Callable(configured, k)[i] in configured && Position(Callable(configured, k)[i]) < k
    ensures forall i, j :: 0 <= i < j < |Callable(configured, k)| ==>
                             Position(Callable(configured, k)[i]) < Position(Callable(configured, k)[j])
  {
    if k > 0 {
      CallableAscends(configured, k - 1);
      assert Position(ORDER[k - 1]) == k - 1;
    }
  }

  /** The loop calls the configured handlers in order, from the first one on,
      and never the execution handler outside paper mode. */
  lemma {:induction false} StagesCall(configured: set<Stage>, q: Request, c: RunContext, n: nat) returns (k: nat)
    requires n <= |ORDER|
    ensures var p := Stages(configured, q, c, n);
            && k <= n && p.called == Callable(configured, k)
            && (p.failure.None? ==> k == n)
            && (Execution in p.called ==> q.mode == Paper)
  {
    if n == 0 {
      return 0;
    }
    hide StageStep;
    k := StagesCall(configured, q, c, n - 1);
    var before, after := Stages(configured, q, c, n - 1), Stages(configured, q, c, n);
    if before.failure.None? {
      StepCalls(configured, q, c, before, ORDER[n - 1]);
      hide Stages;
      assert Callable(configured, n)
        == Callable(configured, n - 1) + (if ORDER[n - 1] in configured then [ORDER[n - 1]] else []);
      k := if after.called == before.called && after.failure.Some? then n - 1 else n;
    }
  }

  lemma StepCalls(configured: set<Stage>, q: Request, c: RunContext, p: Progress, stage: Stage)
    ensures var after := StageStep(configured, q, c, p, stage);
            && (after.called == p.called || (stage in configured && after.called == p.called + [stage]))
            && (after.failure.None? ==> after.called == p.called + (if stage in configured then [stage] else []))
            && (after.called != p.called && stage == Execution ==> q.mode == Paper)
  {
  }

  /** The payload holds the initial inputs overlaid with the outputs; a stage
      has an output only if its handler was called, and as long as nothing has
      raised every called handler has one; every call was announced by a stored
      STARTED event. */
  ghost predicate Consequent(q: Request, c: RunContext, p: Progress) {
    && (forall stage :: stage in p.outputs ==>
          stage in p.called && StageKey(stage) in p.payload && p.payload[StageKey(stage)] == p.outputs[stage])
    && (p.failure.None? ==> forall stage :: stage in p.called ==> stage in p.outputs)
    && (forall key :: key in q.inputs && (forall stage :: StageKey(stage) != key) ==>
          key in p.payload && p.payload[key] == q.inputs[key])
    && (forall stage :: stage in p.called ==> Announced(c, p, stage))
  }

  ghost predicate Announced(c: RunContext, p: Progress, stage: Stage) {
    StageEvent(c.runId, stage, StageStarted, "") in p.stored
  }

  lemma {:induction false} PayloadHoldsTheOutputs(configured: set<Stage>, q: Request, c: RunContext, n: nat)
    requires n <= |ORDER|
    ensures Consequent(q, c, Stages(configured, q, c, n))
  {
    hide StageStep, Consequent;
    if n == 0 {
      BeginIsConsequent(q, c);
    } else {
      PayloadHoldsTheOutputs(configured, q, c, n - 1);
      var before := Stages(configured, q, c, n - 1);
      if before.failure.None? {
        StepIsConsequent(configured, q, c, before, ORDER[n - 1]);
      }
    }
  }

  lemma BeginIsConsequent(q: Request, c: RunContext)
    ensures Consequent(q, c, Begin(q))
  {
  }

  lemma StageKeysDiffer()
    ensures forall a, b :: StageKey(a) == StageKey(b) ==> a == b
  {
  }

  lemma EmitKeepsConsequent(q: Request, c: RunContext, p: Progress, e: StageEvent)
    requires Consequent(q, c, p)
    ensures var after := Emit(q, p, e);
            Consequent(q, c, after) && after.stored == p.stored + [e] && after.called == p.called
              && after.payload == p.payload
  {
    hide StageKey;
  }

  lemma CallKeepsConsequent(q: Request, c: RunContext, p: Progress, stage: Stage, message: string)
    requires Consequent(q, c, p) && Announced(c, p, stage)
    ensures Consequent(q, c, p.(called := p.called + [stage], failure := Some(message)))
  {
    hide StageKey;
  }

  lemma AnswerKeepsConsequent(q: Request, c: RunContext, p: Progress, stage: Stage, value: string)
    requires Consequent(q, c, p) && Announced(c, p, stage)
    ensures Consequent(q, c, p.(called := p.called + [stage], outputs := p.outputs[stage := value],
                                payload := p.payload[StageKey(stage) := value]))
  {
    StageKeysDiffer();
    hide StageKey;
  }

  lemma StepIsConsequent(configured: set<Stage>, q: Request, c: RunContext, p: Progress, stage: Stage)
    requires p.failure.None? && Consequent(q, c, p)
    ensures Consequent(q, c, StageStep(configured, q, c, p, stage))
  {
    if stage !in configured {
      EmitKeepsConsequent(q, c, p, StageEvent(c.runId, stage, StageSkipped, "handler_not_configured"));
    } else if stage == Execution && q.mode != Paper {
      assert Consequent(q, c, p.(failure := Some(GATE_ERROR)));
    } else {
      var e := StageEvent(c.runId, stage, StageStarted, "");
      var started := Emit(q, p, e);
      EmitKeepsConsequent(q, c, p, e);
      assert started.stored[|p.stored|] == e;
      assert Announced(c, started, stage);
      hide Consequent, Announced, StageKey;
      if started.failure.None? {
        match q.handler(stage, c, started.payload)
        case Err(message) => CallKeepsConsequent(q, c, started, stage, message);
        case Ok(value) =>
          AnswerKeepsConsequent(q, c, started, stage, value);
          var produced := started.(called := started.called + [stage], outputs := started.outputs[stage := value],
                                   payload := started.payload[StageKey(stage) := value]);
          EmitKeepsConsequent(q, c, produced, StageEvent(c.runId, stage, StageCompleted, ""));
      }
    }
  }

  // ------------------------------------------------------------ what the handlers see

  /** The payload names of the stages, in canonical order. */
  ghost const NAMES: seq<string> :=
    ["data", "research", "market", "analysis", "prediction", "strategy", "risk", "safety", "execution", "monitoring"]

  /** The initial inputs overlaid with the outputs of the first `n` stages. */
  ghost function Overlay(inputs: Payload, outputs: map<Stage, string>, n: nat): Payload
    requires n <= |ORDER|
  {
    if n == 0 then inputs
    else
      var before := Overlay(inputs, outputs, n - 1);
      if ORDER[n - 1] in outputs then before[NAMES[n - 1] := outputs[ORDER[n - 1]]] else before
  }

  lemma {:induction false} OverlayLooksBack(inputs: Payload, a: map<Stage, string>, b: map<Stage, string>, n: nat)
    requires n <= |ORDER|
    requires forall i :: 0 <= i < n ==>
                           (ORDER[i] in a <==> ORDER[i] in b) && (ORDER[i] in a ==> a[ORDER[i]] == b[ORDER[i]])
    ensures Overlay(inputs, a, n) == Overlay(inputs, b, n)
  {
    if n > 0 {
      OverlayLooksBack(inputs, a, b, n - 1);
    }
  }

  /** Every output is what its handler returned for the inputs overlaid with the
      outputs before it; and if the last handler called has no output, it raised,
      on that overlay, and its message is the failure. */
  ghost predicate Computed(q: Request, c: RunContext, p: Progress, n: nat)
    requires n <= |ORDER|
  {
    && OutputsComputed(q, c, p, n)
    && (p.failure.None? ==> p.payload == Overlay(q.inputs, p.outputs, n))
    && CallsComputed(q, c, p, n)
  }

  /** Every output is the handler's answer to the overlay of its stage. */
  ghost predicate OutputsComputed(q: Request, c: RunContext, p: Progress, n: nat)
    requires n <= |ORDER|
  {
    forall i :: 0 <= i < |ORDER| && ORDER[i] in p.outputs ==>
      i < n && q.handler(ORDER[i], c, Overlay(q.inputs, p.outputs, i)) == Ok(p.outputs[ORDER[i]])
  }

  /** A called handler without an output raised, and that ended the run. */
  ghost predicate CallsComputed(q: Request, c: RunContext, p: Progress, n: nat)
    requires n <= |ORDER|
  {
    forall stage :: stage in p.called && stage !in p.outputs ==>
      Position(stage) < n && p.failure.Some?
      && q.handler(stage, c, Overlay(q.inputs, p.outputs, Position(stage))) == Err(p.failure.value)
  }

  /** What one stage does: its handler is not reached; or raises; or answers.
      The handler is given the payload as it is. */
  ghost predicate Handled(q: Request, c: RunContext, p: Progress, next: Progress, n: nat)
    requires n < |ORDER|
  {
    var stage := ORDER[n];
    || (next.called == p.called && next.outputs == p.outputs && next.payload == p.payload)
    || (&& next.called == p.called + [stage] && next.outputs == p.outputs && next.failure.Some?
        && q.handler(stage, c, p.payload) == Err(next.failure.value))
    || (&& next.called == p.called + [stage] && stage in next.outputs
        && q.handler(stage, c, p.payload) == Ok(next.outputs[stage])
        && next.outputs == p.outputs[stage := next.outputs[stage]]
        && next.payload == p.payload[NAMES[n] := next.outputs[stage]])
  }

  lemma StageHandles(configured: set<Stage>, q: Request, c: RunContext, p: Progress, n: nat)
    requires n < |ORDER| && p.failure.None?
    ensures Handled(q, c, p, StageStep(configured, q, c, p, ORDER[n]), n)
  {
    assert StageKey(ORDER[n]) == NAMES[n];
    hide StageKey;
  }

  lemma {:induction false} HandlersSeeTheOverlay(configured: set<Stage>, q: Request, c: RunContext, n: nat)
    requires n <= |ORDER|
    ensures Computed(q, c, Stages(configured, q, c, n), n)
  {
    hide StageStep, Computed, Handled;
    if n == 0 {
      NothingIsComputed(q, c);
    } else {
      HandlersSeeTheOverlay(configured, q, c, n - 1);
      var p := Stages(configured, q, c, n - 1);
      if p.failure.None? {
        StageHandles(configured, q, c, p, n - 1);
        NextIsComputed(q, c, p, Stages(configured, q, c, n), n - 1);
      } else {
        FailedStaysComputed(q, c, p, n - 1);
      }
    }
  }

  lemma NothingIsComputed(q: Request, c: RunContext)
    ensures Computed(q, c, Begin(q), 0)
  {
  }

  lemma FailedStaysComputed(q: Request, c: RunContext, p: Progress, n: nat)
    requires n < |ORDER| && p.failure.Some? && Computed(q, c, p, n)
    ensures Computed(q, c, p, n + 1)
  {
    hide Overlay, Position;
  }

  lemma NextIsComputed(q: Request, c: RunContext, p: Progress, next: Progress, n: nat)
    requires n < |ORDER| && p.failure.None? && Computed(q, c, p, n) && Handled(q, c, p, next, n)
    ensures Computed(q, c, next, n + 1)
  {
    OverlaysStay(q, p, next, n);
    LastOverlay(q, next, n);
    NextOutputs(q, c, p, next, n);
    NextCalls(q, c, p, next, n);
    hide Overlay, Position, OutputsComputed, CallsComputed;
  }

  lemma NextOutputs(q: Request, c: RunContext, p: Progress, next: Progress, n: nat)
    requires n < |ORDER| && p.failure.None? && Computed(q, c, p, n) && Handled(q, c, p, next, n)
    ensures OutputsComputed(q, c, next, n + 1)
  {
    OverlaysStay(q, p, next, n);
    forall i | 0 <= i < |ORDER| && ORDER[i] in next.outputs
      ensures i <= n && q.handler(ORDER[i], c, Overlay(q.inputs, next.outputs, i)) == Ok(next.outputs[ORDER[i]])
    {
      assert Position(ORDER[i]) == i && Position(ORDER[n]) == n;
      hide Overlay, Position, CallsComputed;
    }
  }

  lemma NextCalls(q: Request, c: RunContext, p: Progress, next: Progress, n: nat)
    requires n < |ORDER| && p.failure.None? && Computed(q, c, p, n) && Handled(q, c, p, next, n)
    ensures CallsComputed(q, c, next, n + 1)
  {
    OverlaysStay(q, p, next, n);
    assert Position(ORDER[n]) == n;
    hide Overlay, Position, OutputsComputed;
  }

  lemma LastOverlay(q: Request, p: Progress, n: nat)
    requires n < |ORDER|
    ensures Overlay(q.inputs, p.outputs, n + 1)
            == (if ORDER[n] in p.outputs then Overlay(q.inputs, p.outputs, n)[NAMES[n] := p.outputs[ORDER[n]]]
                else Overlay(q.inputs, p.outputs, n))
  {
  }

  /** A new output of stage `n` changes no overlay up to it. */
  lemma OverlaysStay(q: Request, p: Progress, next: Progress, n: nat)
    requires n < |ORDER|
    requires next.outputs == p.outputs
             || (ORDER[n] in next.outputs && next.outputs == p.outputs[ORDER[n] := next.outputs[ORDER[n]]])
    ensures forall i :: 0 <= i <= n ==> Overlay(q.inputs, next.outputs, i) == Overlay(q.inputs, p.outputs, i)
  {
    forall i | 0 <= i <= n ensures Overlay(q.inputs, next.outputs, i) == Overlay(q.inputs, p.outputs, i) {
      forall j | 0 <= j < i
        ensures (ORDER[j] in next.outputs <==> ORDER[j] in p.outputs)
                && (ORDER[j] in next.outputs ==> next.outputs[ORDER[j]] == p.outputs[ORDER[j]])
      {
        assert Position(ORDER[j]) == j;
      }
      OverlayLooksBack(q.inputs, next.outputs, p.outputs, i);
    }
  }

  // ------------------------------------------------------------ over all runs

  /** What every finished record looks like. */
  ghost predicate RecordOk(configured: set<Stage>, id: nat, r: RunRecord) {
    && r.context.runId == id && GoodTrace(configured, r)
    && forall i :: 0 <= i < |r.events| ==> r.events[i].runId == id
  }

  /** The index and the runs name each other. */
  ghost predicate Indexed(s: State) {
    && (forall k :: k in s.store.idempotency ==>
          s.store.idempotency[k] in s.store.runs && KeyOf(s.store.runs[s.store.idempotency[k]].context) == k)
    && (forall id :: id in s.store.runs ==>
          && id < s.issued && s.store.runs[id].context.runId == id
             && KeyOf(s.store.runs[id].context) in s.store.idempotency
          && s.store.idempotency[KeyOf(s.store.runs[id].context)] == id)
  }

  /** A handler call belongs to the one run of its key; execution is paper only. */
  ghost predicate CallOk(configured: set<Stage>, s: State, call: (Key, nat, Stage)) {
    && call.0 in s.store.idempotency && s.store.idempotency[call.0] == call.1
    && call.2 in configured && (call.2 == Execution ==> call.0.mode == Paper)
  }

  /** Calls for the same key ascend in the canonical order. */
  ghost predicate Ascending(calls: seq<(Key, nat, Stage)>) {
    forall i, j :: 0 <= i < j < |calls| && calls[i].0 == calls[j].0 ==> Position(calls[i].2) < Position(calls[j].2)
  }

  ghost predicate Consistent(configured: set<Stage>, s: State) {
    && Indexed(s)
    && (forall id :: id in s.store.runs ==> RecordOk(configured, id, s.store.runs[id]))
    && (forall i :: 0 <= i < |s.calls| ==> CallOk(configured, s, s.calls[i]))
    && Ascending(s.calls)
  }

  /** The run that a request would start, if it is not refused or a duplicate. */
  predicate Starts(s: State, q: Request) {
    q.aware && Normalize(q.symbol) != "" && KeyOf(ContextOf(s, q)) !in s.store.idempotency
  }

  /** Both ends of the try statement leave a good record, which the result
      repeats exactly when no subscriber raised. */
  lemma ConcludeFacts(configured: set<Stage>, q: Request, c: RunContext)
    requires c.mode == q.mode
    ensures var (record, result) := Conclude(q, c, Stages(configured, q, c, |ORDER|));
            && RecordOk(configured, c.runId, record) && KeyOf(record.context) == KeyOf(c)
            && (result.Err? ==> record.context.status == Failed)
            && (result.Ok? ==>
                  && result.value.run == record.context
                  && (result.value.error.None? <==> record.context.status == Succeeded)
                  && (result.value.events == record.events <==> forall i :: 0 <= i < |record.events| ==> !q.bus(i)))
            && ((forall i :: 0 <= i < |record.events| ==> !q.bus(i)) ==> result.Ok?)
  {
    ConcludeTrace(configured, q, c);
    var k, tail := StagesTrace(configured, q, c, |ORDER|);
    var p := Stages(configured, q, c, |ORDER|);
    hide Stages, FailedTail, Body, GoodTrace, Kinds;
    if p.failure.Some? {
      var last := StageEvent(c.runId, Monitoring, RunFailed, p.failure.value);
      SnocIsInjective(p.events, p.stored, last);
    }
  }

  lemma SnocIsInjective(a: seq<StageEvent>, b: seq<StageEvent>, e: StageEvent)
    ensures a + [e] == b + [e] <==> a == b
  {
    if a + [e] == b + [e] {
      assert a == (a + [e])[..|a|];
      assert b == (b + [e])[..|b|];
    }
  }

  lemma ConcludeTrace(configured: set<Stage>, q: Request, c: RunContext)
    requires c.mode == q.mode
    ensures GoodTrace(configured, Conclude(q, c, Stages(configured, q, c, |ORDER|)).0)
  {
    var k, tail := StagesTrace(configured, q, c, |ORDER|);
    var p := Stages(configured, q, c, |ORDER|);
    hide Stages, FailedTail, Body, Tidy;
    if p.failure.Some? {
      var last := StageEvent(c.runId, Monitoring, RunFailed, p.failure.value);
      assert Kinds(p.stored + [last]) == Kinds(p.stored) + [(Monitoring, RunFailed)];
    } else {
      assert Kinds(p.stored) == Body(configured, |ORDER|);
    }
  }

  /** A fresh request runs once, under a new id; any other changes nothing but
      the supply of ids, and calls no handler. */
  lemma RunFacts(configured: set<Stage>, s: State, q: Request)
    requires Indexed(s)
    ensures var (after, result) := Run(configured, s, q);
            if Starts(s, q) then
              var c := ContextOf(s, q).(status := Running);
              var p := Stages(configured, q, c, |ORDER|);
              var (record, answer) := Conclude(q, c, p);
              && result == answer && c.runId !in s.store.runs
              && after.store == Runs(s.store.runs[c.runId := record], s.store.idempotency[KeyOf(c) := c.runId])
              && after.issued == s.issued + 1 && after.calls == s.calls + Called(c, p.called)
            else
              && after.store == s.store && after.calls == s.calls && s.issued <= after.issued <= s.issued + 1
              && result != Err(UnknownRun)
              && (q.aware && Normalize(q.symbol) != "" ==>
                    var record := s.store.runs[s.store.idempotency[KeyOf(ContextOf(s, q))]];
                    result == Ok(RunResult(record.context.(status := Rejected), record.events, map[],
                      Some("IDEMPOTENT_DUPLICATE"))))
  {
    hide Stages, Conclude, Normalize;
    if Starts(s, q) {
      var c := ContextOf(s, q);
      var record := RunRecord(c, []);
      var final := Conclude(q, c.(status := Running), Stages(configured, q, c.(status := Running), |ORDER|)).0;
      assert s.store.runs[c.runId := record][c.runId := final] == s.store.runs[c.runId := final];
    }
  }

  lemma RunKeepsConsistent(configured: set<Stage>, s: State, q: Request)
    requires Consistent(configured, s)
    ensures Consistent(configured, Run(configured, s, q).0)
  {
    RunFacts(configured, s, q);
    if Starts(s, q) {
      var c := ContextOf(s, q).(status := Running);
      var p := Stages(configured, q, c, |ORDER|);
      ConcludeFacts(configured, q, c);
      var k := StagesCall(configured, q, c, |ORDER|);
      CallableAscends(configured, k);
      var after, record := Run(configured, s, q).0, Conclude(q, c, p).0;
      hide Run, Stages, Conclude, Starts, Callable, RecordOk, ContextOf;
      NewRecordIsIndexed(configured, s, after, c, record);
      NewCallsAreOk(configured, s, after, c, p.called);
    }
  }

  lemma NewRecordIsIndexed(configured: set<Stage>, s: State, after: State, c: RunContext, record: RunRecord)
    requires Indexed(s) && forall id :: id in s.store.runs ==> RecordOk(configured, id, s.store.runs[id])
    requires RecordOk(configured, c.runId, record) && KeyOf(record.context) == KeyOf(c)
    requires KeyOf(c) !in s.store.idempotency && c.runId == s.issued && after.issued == s.issued + 1
    requires after.store == Runs(s.store.runs[c.runId := record], s.store.idempotency[KeyOf(c) := c.runId])
    ensures Indexed(after) && forall id :: id in after.store.runs ==> RecordOk(configured, id, after.store.runs[id])
  {
    assert record.context.runId == c.runId;
    hide RecordOk;
  }

  lemma NewCallsAreOk(configured: set<Stage>, s: State, after: State, c: RunContext, called: seq<Stage>)
    requires KeyOf(c) !in s.store.idempotency
    requires after.store.idempotency == s.store.idempotency[KeyOf(c) := c.runId]
             && after.calls == s.calls + Called(c, called)
    requires (forall i :: 0 <= i < |s.calls| ==> CallOk(configured, s, s.calls[i])) && Ascending(s.calls)
    requires forall i :: 0 <= i < |called| ==> called[i] in configured && (called[i] == Execution ==> c.mode == Paper)
    requires forall i, j :: 0 <= i < j < |called| ==> Position(called[i]) < Position(called[j])
    ensures (forall i :: 0 <= i < |after.calls| ==> CallOk(configured, after, after.calls[i])) && Ascending(after.calls)
  {
    hide Position;
    forall i | 0 <= i < |after.calls| ensures CallOk(configured, after, after.calls[i]) {
      if i < |s.calls| {
        assert CallOk(configured, s, s.calls[i]);
      }
    }
    forall i, j | 0 <= i < j < |after.calls| && after.calls[i].0 == after.calls[j].0
      ensures Position(after.calls[i].2) < Position(after.calls[j].2)
    {
      if i < |s.calls| {
        assert CallOk(configured, s, s.calls[i]);
      }
    }
  }

  lemma {:induction false} EveryStateIsConsistent(configured: set<Stage>, requests: seq<Request>)
    ensures Consistent(configured, RunAll(configured, requests))
  {
    if requests != [] {
      EveryStateIsConsistent(configured, requests[..|requests| - 1]);
      RunKeepsConsistent(configured, RunAll(configured, requests[..|requests| - 1]), requests[|requests| - 1]);
    }
  }

  /** Over any sequence of runs, whatever the handlers and subscribers do: all
      handler calls for one decision point belong to one run, no stage's handler
      is called twice for it, they come in the canonical order, and the
      execution handler is among them only in paper mode. */
  lemma OneRunPerDecisionPoint(configured: set<Stage>, requests: seq<Request>, i: nat, j: nat)
    requires i < j < |RunAll(configured, requests).calls|
    requires RunAll(configured, requests).calls[i].0 == RunAll(configured, requests).calls[j].0
    ensures var calls := RunAll(configured, requests).calls;
            && calls[i].1 == calls[j].1 && Position(calls[i].2) < Position(calls[j].2)
            && (calls[i].2 == Execution || calls[j].2 == Execution ==> calls[i].0.mode == Paper)
  {
    EveryStateIsConsistent(configured, requests);
    var s := RunAll(configured, requests);
    hide RunAll, Indexed, RecordOk;
    assert CallOk(configured, s, s.calls[i]) && CallOk(configured, s, s.calls[j]);
  }

  /** The execution handler is only ever called in paper mode, and no handler
      that is not configured is called at all. */
  lemma ExecutionOnlyInPaperMode(configured: set<Stage>, requests: seq<Request>)
    ensures forall i :: 0 <= i < |RunAll(configured, requests).calls| ==>
                          var (key, runId, stage) := RunAll(configured, requests).calls[i];
                          && stage in configured && (stage == Execution ==> key.mode == Paper)
                          && runId in RunAll(configured, requests).store.runs
  {
    EveryStateIsConsistent(configured, requests);
    var s := RunAll(configured, requests);
    hide RunAll, RecordOk;
    forall i | 0 <= i < |s.calls|
      ensures s.calls[i].2 in configured && (s.calls[i].2 == Execution ==> s.calls[i].0.mode == Paper)
      ensures s.calls[i].1 in s.store.runs
    {
      assert CallOk(configured, s, s.calls[i]);
    }
  }

  /** Every record in the store is a finished run with a good trace, and ends
      in RUN_FAILED exactly when the run failed; that event appears nowhere
      else. */
  lemma EveryRecordHasAGoodTrace(configured: set<Stage>, requests: seq<Request>, id: nat)
    requires id in RunAll(configured, requests).store.runs
    ensures var record := RunAll(configured, requests).store.runs[id];
            && RecordOk(configured, id, record)
            && forall i :: 0 <= i < |record.events| ==>
                 (record.events[i].kind == RunFailed <==> record.context.status == Failed && i == |record.events| - 1)
  {
    EveryStateIsConsistent(configured, requests);
    var record := RunAll(configured, requests).store.runs[id];
    assert RecordOk(configured, id, record);
    hide RunAll, Body, FailedTail;
    assert forall i :: 0 <= i < |record.events| ==> Kinds(record.events)[i].1 == record.events[i].kind;
    BodyHasNoFailure(configured, |ORDER|);
    if record.context.status == Failed {
      var n, tail, busRaised :| 0 <= n < |ORDER| && FailedTail(configured, record.context.mode, n, tail, busRaised)
                                && Kinds(record.events) == Body(configured, n) + tail + [(Monitoring, RunFailed)];
      BodyHasNoFailure(configured, n);
      TailHasNoFailure(configured, record.context.mode, n, tail, busRaised);
    }
  }

  lemma {:induction false} BodyHasNoFailure(configured: set<Stage>, n: nat)
    requires n <= |ORDER|
    ensures forall e :: e in Body(configured, n) ==> e.1 != RunFailed
  {
    if n > 0 {
      BodyHasNoFailure(configured, n - 1);
    }
  }

  lemma TailHasNoFailure(configured: set<Stage>, mode: Mode, n: nat, tail: seq<(Stage, EventType)>, busRaised: bool)
    requires n < |ORDER| && FailedTail(configured, mode, n, tail, busRaised)
    ensures forall e :: e in tail ==> e.1 != RunFailed
  {
  }

  /** What a caller of `run` learns, in any reachable state. A fresh decision
      point answers with the stored record's context, and with exactly its
      events as long as no subscriber raised; if `run` itself raises, the record
      is still there and FAILED. A repeated one is rejected with the events
      stored so far, calls no handler and changes no record. No index entry is
      ever without its run. */
  lemma RunAnswers(configured: set<Stage>, requests: seq<Request>, q: Request)
    requires q.aware && Normalize(q.symbol) != ""
    ensures var s := RunAll(configured, requests);
            var (after, result) := Run(configured, s, q);
            var key := KeyOf(ContextOf(s, q));
            && key in after.store.idempotency && after.store.idempotency[key] in after.store.runs
            && var record := after.store.runs[after.store.idempotency[key]];
               if key in s.store.idempotency then
                 && after.store == s.store && after.calls == s.calls
                 && result == Ok(RunResult(record.context.(status := Rejected), record.events, map[],
                    Some("IDEMPOTENT_DUPLICATE")))
               else
                 && (result.Err? ==> result == Err(BusRaised) && record.context.status == Failed)
                 && (result.Ok? ==>
                       && result.value.run == record.context
                       && (result.value.error.None? <==> record.context.status == Succeeded)
                       && (result.value.events == record.events <==> NoSubscriberRaised(q, record)))
                 && (NoSubscriberRaised(q, record) ==> result.Ok?)
  {
    var s := RunAll(configured, requests);
    EveryStateIsConsistent(configured, requests);
    RunFacts(configured, s, q);
    if Starts(s, q) {
      var c := ContextOf(s, q).(status := Running);
      ConcludeFacts(configured, q, c);
      ConcludeRaisesOnlyBus(q, c, Stages(configured, q, c, |ORDER|));
      hide Run, Stages, Conclude, RunAll, RecordOk, Normalize;
    } else {
      hide Run, Stages, Conclude, RunAll, RecordOk, Normalize;
    }
  }

  /** What the stages can fail of: a subscriber that raised, a handler that
      raised, or else the execution stage outside paper mode, reached because it
      is configured. Only a skipped stage's event says why it is there. */
  lemma {:induction false} FailuresHaveACause(configured: set<Stage>, q: Request, c: RunContext, n: nat)
    requires n <= |ORDER|
    ensures var p := Stages(configured, q, c, n);
            && (p.failure.None? ==> Undisturbed(q, p))
            && (p.failure.Some? && Undisturbed(q, p) ==>
                  && q.mode != Paper && Execution in configured
                  && p.failure == Some("execution stage is only available in paper mode"))
            && forall i :: 0 <= i < |p.stored| ==> SaysWhy(p.stored[i])
  {
    hide StageStep, Overlay, CallsComputed, SaysWhy, Undisturbed;
    if n == 0 {
      NothingHappened(q);
    } else {
      FailuresHaveACause(configured, q, c, n - 1);
      HandlersSeeTheOverlay(configured, q, c, n - 1);
      var before := Stages(configured, q, c, n - 1);
      if before.failure.None? {
        assert ORDER[n - 1] !in before.outputs;
        StageHasACause(configured, q, c, before, ORDER[n - 1]);
      }
    }
  }

  lemma NothingHappened(q: Request)
    ensures Undisturbed(q, Begin(q))
  {
  }

  lemma StageHasACause(configured: set<Stage>, q: Request, c: RunContext, p: Progress, stage: Stage)
    requires p.failure.None? && Undisturbed(q, p) && stage !in p.outputs
    requires forall i :: 0 <= i < |p.stored| ==> SaysWhy(p.stored[i])
    ensures var after := StageStep(configured, q, c, p, stage);
            && (after.failure.None? ==> Undisturbed(q, after))
            && (after.failure.Some? && Undisturbed(q, after) ==>
                  && q.mode != Paper && Execution in configured
                  && after.failure == Some("execution stage is only available in paper mode"))
            && forall i :: 0 <= i < |after.stored| ==> SaysWhy(after.stored[i])
  {
    var skipped := StageEvent(c.runId, stage, StageSkipped, "handler_not_configured");
    var started := StageEvent(c.runId, stage, StageStarted, "");
    var completed := StageEvent(c.runId, stage, StageCompleted, "");
    assert SaysWhy(skipped) && SaysWhy(started) && SaysWhy(completed);
    EmitDisturbs(q, p, skipped);
    EmitDisturbs(q, p, started);
    var calling := Emit(q, p, started);
    if q.handler(stage, c, calling.payload).Ok? {
      var value := q.handler(stage, c, calling.payload).value;
      EmitDisturbs(q, calling.(called := calling.called + [stage], outputs := calling.outputs[stage := value],
                               payload := calling.payload[StageKey(stage) := value]), completed);
    }
    hide Emit, SaysWhy, StageKey;
  }

  lemma EmitDisturbs(q: Request, p: Progress, e: StageEvent)
    ensures var after := Emit(q, p, e);
            && after == p.(stored := p.stored + [e], events := after.events, failure := after.failure)
            && (Undisturbed(q, after) ==> after.failure == p.failure)
            && (Undisturbed(q, p) && after.failure.None? ==> Undisturbed(q, after))
  {
    assert Emit(q, p, e).stored[|p.stored|] == e;
  }

  ghost predicate SaysWhy(e: StageEvent) {
    || (e.kind == StageSkipped && e.detail == "handler_not_configured")
    || (e.kind in {StageStarted, StageCompleted} && e.detail == "")
  }

  /** No subscriber raised, and every handler that was called answered. */
  ghost predicate Undisturbed(q: Request, p: Progress) {
    && (forall i :: 0 <= i < |p.stored| ==> !q.bus(i))
    && forall stage :: stage in p.called ==> stage in p.outputs
  }

  /** The outputs a fresh run returns are those its handlers computed, each from
      the inputs overlaid with the outputs before it; a run that succeeds has one
      of every configured stage; the error of one that does not is the message
      of its last event, and of the handler that raised, if one did. */
  lemma OutputsAreComputed(configured: set<Stage>, requests: seq<Request>, q: Request)
    requires var s := RunAll(configured, requests); Starts(s, q) && Run(configured, s, q).1.Ok?
    ensures var s := RunAll(configured, requests);
            var r := Run(configured, s, q).1.value;
            var c := ContextOf(s, q).(status := Running);
            && (forall i :: 0 <= i < |ORDER| && ORDER[i] in r.outputs ==>
                  ORDER[i] in configured && q.handler(ORDER[i], c, Overlay(q.inputs, r.outputs, i))
                    == Ok(r.outputs[ORDER[i]]))
            && (r.error.None? ==> forall i :: 0 <= i < |ORDER| && ORDER[i] in configured ==> ORDER[i] in r.outputs)
            && (r.error.Some? ==> r.events != [] && r.events[|r.events| - 1].detail == r.error.value)
            && (forall stage :: stage in Stages(configured, q, c, |ORDER|).called && stage !in r.outputs ==>
                  r.error.Some? && Position(stage) < |ORDER|
                  && q.handler(stage, c, Overlay(q.inputs, r.outputs, Position(stage))) == Err(r.error.value))
  {
    var s := RunAll(configured, requests);
    EveryStateIsConsistent(configured, requests);
    RunFacts(configured, s, q);
    var c := ContextOf(s, q).(status := Running);
    var p := Stages(configured, q, c, |ORDER|);
    HandlersSeeTheOverlay(configured, q, c, |ORDER|);
    PayloadHoldsTheOutputs(configured, q, c, |ORDER|);
    var k := StagesCall(configured, q, c, |ORDER|);
    CallableAscends(configured, k);
    if p.failure.None? {
      CallableHasAll(configured, |ORDER|);
    }
    hide Run, Stages, RunAll, Overlay, Normalize, Callable;
  }

  lemma {:induction false} CallableHasAll(configured: set<Stage>, k: nat)
    requires k <= |ORDER|
    ensures forall i :: 0 <= i < k && ORDER[i] in configured ==> ORDER[i] in Callable(configured, k)
  {
    if k > 0 {
      CallableHasAll(configured, k - 1);
    }
  }

  /** A fresh run is filed under its normalised symbol, its instant, five minutes
      and its mode, and its record says the same. Two requests are the same
      decision point exactly when symbol, instant and mode agree. */
  lemma RunsAreFiled(configured: set<Stage>, requests: seq<Request>, q: Request, other: Request)
    requires Starts(RunAll(configured, requests), q)
    ensures var s := RunAll(configured, requests);
            var after := Run(configured, s, q).0;
            var c := RunContext(s.issued, q.timestamp, Normalize(q.symbol), 5, q.mode, Running);
            && s.issued !in s.store.runs && s.issued in after.store.runs
            && after.store.runs[s.issued].context == c.(status := after.store.runs[s.issued].context.status)
            && after.store.idempotency
               == s.store.idempotency[Key(Normalize(q.symbol), q.timestamp, 5, q.mode) := s.issued]
            && (other.aware && Normalize(other.symbol) != "" ==>
                  (Starts(after, other) <==>
                     Starts(s, other)
                     && !(Normalize(other.symbol) == Normalize(q.symbol) && other.timestamp == q.timestamp
                        && other.mode == q.mode)))
  {
    var s := RunAll(configured, requests);
    EveryStateIsConsistent(configured, requests);
    RunFacts(configured, s, q);
    var c := ContextOf(s, q).(status := Running);
    hide Run, Stages, RunAll, Normalize, RecordOk;
  }

  lemma ConcludeRaisesOnlyBus(q: Request, c: RunContext, p: Progress)
    ensures Conclude(q, c, p).1.Err? ==> Conclude(q, c, p).1 == Err(BusRaised)
  {
  }

  ghost predicate NoSubscriberRaised(q: Request, record: RunRecord) {
    forall i :: 0 <= i < |record.events| ==> !q.bus(i)
  }

  /** The request of the witnesses below: nothing configured, and a subscriber
      that raises on the first events of the run. */
  function Interrupted(raising: nat): Request {
    Request("ABC", 0, true, Paper, map[], (stage, c, payload) => Err("never called"), n => n < raising)
  }

  /** One raising subscriber: the first stage fails on its own event, and the
      result returns one event less than the store holds. Two: `run` raises, and
      leaves its failed record behind. */
  lemma RaisingSubscribersAreSeen()
    ensures var (after, result) := Run({}, EMPTY, Interrupted(1));
            && result.Ok? && 0 in after.store.runs
            && |result.value.events| == 1 && |after.store.runs[0].events| == 2
    ensures var (after, result) := Run({}, EMPTY, Interrupted(2));
            result == Err(BusRaised) && 0 in after.store.runs && after.store.runs[0].context.status == Failed
  {
    InterruptedRun(1);
    InterruptedRun(2);
  }

  lemma InterruptedRun(raising: nat)
    requires 1 <= raising
    ensures var (after, result) := Run({}, EMPTY, Interrupted(raising));
            && 0 in after.store.runs && after.store.runs[0].context.status == Failed
               && |after.store.runs[0].events| == 2
            && (if raising == 1 then result.Ok? && |result.value.events| == 1 else result == Err(BusRaised))
  {
    var q := Interrupted(raising);
    assert Normalize("ABC") != "" by {
      StripOfTight("ABC");
      assert |Upper("ABC")| == 3;
    }
    var c := RunContext(0, 0, Normalize("ABC"), TIMEFRAME, Paper, Running);
    var p := Stages({}, q, c, 1);
    assert Stages({}, q, c, 0) == Begin(q);
    assert p == StageStep({}, q, c, Begin(q), Data);
    assert p.failure == Some(BUS_ERROR) && p.events == [] && |p.stored| == 1;
    StagesStop({}, q, c, 1);
    RunFacts({}, EMPTY, q);
    hide Stages, Run, Normalize;
  }

  // ------------------------------------------------------------ the objects

  /** The run store: two dictionaries, updated together under one lock. */
  class RunStateStore {
    var runs: map<nat, RunRecord>
    var idempotency: map<Key, nat>

    ghost function View(): Runs
      reads this
    {
      Runs(runs, idempotency)
    }

    constructor ()
      ensures View() == Runs(map[], map[])
    {
      runs, idempotency := map[], map[];
    }

    method CreateRun(c: RunContext) returns (record: Option<RunRecord>)
      modifies this
      ensures match record
              case None => Create(old(View()), c).None? && View() == old(View())
              case Some(r) => Create(old(View()), c) == Some((View(), r))
    {
      if KeyOf(c) in idempotency {
        var existing := idempotency[KeyOf(c)];
        return if existing in runs then Some(runs[existing]) else None;
      }
      var created := RunRecord(c, []);
      runs, idempotency := runs[c.runId := created], idempotency[KeyOf(c) := c.runId];
      return Some(created);
    }

    method Update(c: RunContext) returns (known: bool)
      modifies this
      ensures known <==> c.runId in old(runs)
      ensures if known then UpdateContext(old(View()), c) == Some(View()) else View() == old(View())
    {
      known := c.runId in runs;
      if known {
        runs := runs[c.runId := runs[c.runId].(context := c)];
      }
    }

    method Append(e: StageEvent) returns (known: bool)
      modifies this
      ensures known <==> e.runId in old(runs)
      ensures if known then AppendEvent(old(View()), e) == Some(View()) else View() == old(View())
    {
      known := e.runId in runs;
      if known {
        runs := runs[e.runId := runs[e.runId].(events := runs[e.runId].events + [e])];
      }
    }
  }

  /** The orchestrator. A run id is only ever issued once; the try statement of
      `run` is the loop of `RunStages` followed by `Finish`. */
  class AutomationOrchestrator {
    const configured: set<Stage>
    const store: RunStateStore
    var issued: nat
    ghost var calls: seq<(Key, nat, Stage)>

    ghost function View(): State
      reads this, store
    {
      State(store.View(), issued, calls)
    }

    constructor (configured: set<Stage>)
      ensures this.configured == configured && fresh(store) && View() == EMPTY
    {
      this.configured, issued, calls := configured, 0, [];
      store := new RunStateStore();
    }

    /** `_emit`: store first, then publish; true when a subscriber raised. */
    method EmitEvent(q: Request, e: StageEvent, count: nat) returns (raised: bool)
      requires e.runId in store.runs
      modifies store
      ensures AppendEvent(old(store.View()), e) == Some(store.View()) && raised == q.bus(count)
    {
      var known := store.Append(e);
      return q.bus(count);
    }

    /** The stage loop: every event is in the store before anything can raise,
        and the record's own context is not touched. */
    method RunStages(q: Request, c: RunContext) returns (p: Progress)
      requires c.runId in store.runs && store.runs[c.runId] == RunRecord(c, [])
      modifies this`calls, store
      ensures p == Stages(configured, q, c, |ORDER|)
      ensures store.View() == Runs(old(store.runs)[c.runId := RunRecord(c, p.stored)], old(store.idempotency))
      ensures calls == old(calls) + Called(c, p.called)
    {
      hide StageStep, Stages, Called, KeyOf;
      NothingYet(configured, q, c);
      p := Begin(q);
      var n := 0;
      while n < |ORDER| && p.failure.None?
        invariant 0 <= n <= |ORDER| && p == Stages(configured, q, c, n)
        invariant store.View() == Runs(old(store.runs)[c.runId := RunRecord(c, p.stored)], old(store.idempotency))
        invariant calls == old(calls) + Called(c, p.called)
      {
        ghost var before := p.called;
        p := RunStage(q, c, p, ORDER[n]);
        NextStage(configured, q, c, n);
        CalledSplits(c, before, p.called);
        n := n + 1;
      }
      StagesStop(configured, q, c, n);
    }

    method RunStage(q: Request, c: RunContext, before: Progress, stage: Stage) returns (p: Progress)
      requires c.runId in store.runs && store.runs[c.runId] == RunRecord(c, before.stored) && before.failure.None?
      modifies this`calls, store
      ensures p == StageStep(configured, q, c, before, stage)
      ensures store.View() == Runs(old(store.runs)[c.runId := RunRecord(c, p.stored)], old(store.idempotency))
      ensures before.called <= p.called && calls == old(calls) + Called(c, p.called[|before.called|..])
    {
      p := before;
      if stage !in configured {
        p := Record(q, c, p, StageEvent(c.runId, stage, StageSkipped, "handler_not_configured"));
        return;
      }
      if stage == Execution && q.mode != Paper {
        p := p.(failure := Some(GATE_ERROR));
        return;
      }
      p := Record(q, c, p, StageEvent(c.runId, stage, StageStarted, ""));
      if p.failure.Some? {
        return;
      }
      p := p.(called := p.called + [stage]);
      calls := calls + [(KeyOf(c), c.runId, stage)];
      var answer := q.handler(stage, c, p.payload);
      if answer.Err? {
        p := p.(failure := Some(answer.error));
        return;
      }
      p := p.(outputs := p.outputs[stage := answer.value], payload := p.payload[StageKey(stage) := answer.value]);
      p := Record(q, c, p, StageEvent(c.runId, stage, StageCompleted, ""));
    }

    method Record(q: Request, c: RunContext, before: Progress, e: StageEvent) returns (p: Progress)
      requires c.runId in store.runs && store.runs[c.runId] == RunRecord(c, before.stored) && e.runId == c.runId
      modifies store
      ensures p == Emit(q, before, e)
      ensures store.View() == Runs(old(store.runs)[c.runId := RunRecord(c, p.stored)], old(store.idempotency))
    {
      p := before.(stored := before.stored + [e]);
      var raised := EmitEvent(q, e, |before.stored|);
      if raised {
        p := p.(failure := Some(BUS_ERROR));
      } else {
        p := p.(events := before.events + [e]);
      }
    }

    /** `run`. Every KeyError of the store is out of reach: the id that `create`
        registered is known to each later update. */
    method RunRequest(q: Request) returns (result: Result<RunResult, RunError>)
      requires Indexed(View())
      modifies this, store
      ensures (View(), result) == Run(configured, old(View()), q)
    {
      hide Indexed, Stages, Normalize, Called;
      if !q.aware {
        return Err(NaiveTimestamp);
      }
      if Normalize(q.symbol) == "" {
        return Err(EmptySymbol);
      }
      ghost var before := View();
      var c := RunContext(issued, q.timestamp, Normalize(q.symbol), TIMEFRAME, q.mode, Created);
      issued := issued + 1;
      var record := store.CreateRun(c);
      if record.None? {
        return Err(UnknownRun);
      }
      if record.value.context.runId != c.runId {
        return Ok(RunResult(record.value.context.(status := Rejected), record.value.events, map[],
          Some("IDEMPOTENT_DUPLICATE")));
      }
      FreshRecord(before, c, record.value);
      var running := c.(status := Running);
      var known := store.Update(running);
      var p := RunStages(q, running);
      var done := running.(status := if p.failure.None? then Succeeded else Failed);
      known := store.Update(done);
      assert known;
      result := Finish(q, running, done, p);
      RunFacts(configured, before, q);
      ghost var final := Conclude(q, running, p).0;
      assert store.runs == Create(before.store, c).value.0.runs[c.runId := final];
    }

    /** RUN_FAILED after an exception, then the result. */
    method Finish(q: Request, running: RunContext, done: RunContext, p: Progress)
      returns (result: Result<RunResult, RunError>)
      requires done == running.(status := if p.failure.None? then Succeeded else Failed)
      requires done.runId in store.runs && store.runs[done.runId] == RunRecord(done, p.stored)
      modifies store
      ensures result == Conclude(q, running, p).1
      ensures store.View() == Runs(old(store.runs)[done.runId := Conclude(q, running, p).0], old(store.idempotency))
    {
      if p.failure.None? {
        assert store.runs == store.runs[done.runId := RunRecord(done, p.stored)];
        return Ok(RunResult(done, p.events, p.outputs, None));
      }
      var last := StageEvent(done.runId, Monitoring, RunFailed, p.failure.value);
      var raised := EmitEvent(q, last, |p.stored|);
      if raised {
        return Err(BusRaised);
      }
      return Ok(RunResult(done, p.events + [last], p.outputs, p.failure));
    }
  }

  lemma NothingYet(configured: set<Stage>, q: Request, c: RunContext)
    ensures Stages(configured, q, c, 0) == Begin(q) && Called(c, []) == []
  {
  }

  lemma NextStage(configured: set<Stage>, q: Request, c: RunContext, n: nat)
    requires n < |ORDER| && Stages(configured, q, c, n).failure.None?
    ensures Stages(configured, q, c, n + 1) == StageStep(configured, q, c, Stages(configured, q, c, n), ORDER[n])
  {
  }

  lemma CalledSplits(c: RunContext, before: seq<Stage>, after: seq<Stage>)
    requires before <= after
    ensures Called(c, before) + Called(c, after[|before|..]) == Called(c, after)
  {
  }

  /** A record under the id just issued is the new one. */
  lemma FreshRecord(s: State, c: RunContext, record: RunRecord)
    requires Indexed(s) && c.runId == s.issued && Create(s.store, c).Some?
    requires record == Create(s.store, c).value.1 && record.context.runId == c.runId
    ensures KeyOf(c) !in s.store.idempotency && record == RunRecord(c, [])
  {
  }

  /** After an exception the remaining iterations are skipped. */
  lemma {:induction false} StagesStop(configured: set<Stage>, q: Request, c: RunContext, n: nat)
    requires n <= |ORDER| && (n == |ORDER| || Stages(configured, q, c, n).failure.Some?)
    ensures Stages(configured, q, c, |ORDER|) == Stages(configured, q, c, n)
    decreases |ORDER| - n
  {
    if n < |ORDER| {
      StagesStop(configured, q, c, n + 1);
    }
  }
}
