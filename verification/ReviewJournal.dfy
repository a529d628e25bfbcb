/** The manual review journal: a log of human reviews and of the outcomes
    reported for them, written by the request threads of the dashboard. */
module ReviewJournal {
  import opened Common

  datatype ReviewRecord = ReviewRecord(reviewId: string, signalId: string, content: string)
  datatype OutcomeRecord = OutcomeRecord(outcomeId: string, reviewId: string, signalId: string, content: string)
  datatype Event = ReviewEvent(review: ReviewRecord) | OutcomeEvent(outcome: OutcomeRecord)

  /** A line of the file: blank, a record, or text that is not a valid record. */
  datatype Line = BlankLine | Record(event: Event) | Invalid

  datatype JournalError =
    | InvalidRecord | DuplicateEvent | OutcomeExists | ManyOutcomes | MissingReviewId | UnknownReview | WriteFailed

  type Outcome<T> = Result<T, JournalError>

  /** The identity `append` compares: the record class with its two ids. */
  datatype EventKey = EventKey(isReview: bool, reviewId: string, outcomeId: Option<string>)

  function KeyOf(e: Event): EventKey {
    match e
    case ReviewEvent(r) => EventKey(true, r.reviewId, None)
    case OutcomeEvent(o) => EventKey(false, o.reviewId, Some(o.outcomeId))
  }

  // ------------------------------------------------------------ the store

  /** `read_events`. */
  function ReadEvents(lines: seq<Line>): Outcome<seq<Event>> {
    if lines == [] then Ok([])
    else
      match ReadEvents(lines[..|lines| - 1])
      case Err(e) => Err(e)
      case Ok(events) =>
        match lines[|lines| - 1]
        case BlankLine => Ok(events)
        case Record(event) => Ok(events + [event])
        case Invalid => Err(InvalidRecord)
  }

  /** Reading goes line by line: blank lines say nothing, a record says its
      event, and one invalid line spoils the whole. */
  lemma {:induction false} ReadsLineByLine(a: seq<Line>, b: seq<Line>, line: Line)
    ensures ReadEvents(a + b) == (if ReadEvents(a).Ok? && ReadEvents(b).Ok?
                                  then Ok(ReadEvents(a).value + ReadEvents(b).value) else Err(InvalidRecord))
    ensures ReadEvents([line]) == (match line
                                   case BlankLine => Ok([])
                                   case Record(e) => Ok([e])
                                   case Invalid => Err(InvalidRecord))
  {
    assert [line][..|[line]| - 1] == [] && [line][|[line]| - 1] == line;
    assert [] + (if line.Record? then [line.event] else []) == if line.Record? then [line.event] else [];
    if b == [] {
      assert a + b == a && ReadEvents(b) == Ok([]);
      if ReadEvents(a).Err? {
        OneReadError(a);
      } else {
        assert ReadEvents(a).value + [] == ReadEvents(a).value;
      }
    } else {
      var n := |b| - 1;
      ReadsLineByLine(a, b[..n], line);
      assert (a + b)[..|a + b| - 1] == a + b[..n] && (a + b)[|a + b| - 1] == b[n];
      if ReadEvents(a).Ok? && ReadEvents(b[..n]).Ok? && b[n].Record? {
        var x, y, e := ReadEvents(a).value, ReadEvents(b[..n]).value, b[n].event;
        assert (x + y) + [e] == x + (y + [e]);
      }
    }
  }

  lemma {:induction false} OneReadError(lines: seq<Line>)
    requires ReadEvents(lines).Err?
    ensures ReadEvents(lines) == Err(InvalidRecord)
  {
    if lines != [] && ReadEvents(lines[..|lines| - 1]).Err? {
      OneReadError(lines[..|lines| - 1]);
    }
  }

  predicate IsOutcomeFor(e: Event, reviewId: string) {
    e.OutcomeEvent? && e.outcome.reviewId == reviewId
  }

  /** The check of `append` against the events already there. */
  function Refuses(events: seq<Event>, e: Event): Option<JournalError> {
    if exists i :: 0 <= i < |events| && KeyOf(events[i]) == KeyOf(e) then Some(DuplicateEvent)
    else if e.OutcomeEvent? && exists i :: 0 <= i < |events| && IsOutcomeFor(events[i], e.outcome.reviewId)
    then Some(OutcomeExists)
    else None
  }

  /** `append`, as one critical section. */
  function Append(lines: seq<Line>, e: Event): Outcome<seq<Line>> {
    match ReadEvents(lines)
    case Err(error) => Err(error)
    case Ok(events) =>
      if Refuses(events, e).Some? then Err(Refuses(events, e).value) else Ok(lines + [Record(e)])
  }

  function OutcomesFor(events: seq<Event>, reviewId: string): seq<OutcomeRecord> {
    if events == [] then []
    else
      var last := events[|events| - 1];
      OutcomesFor(events[..|events| - 1], reviewId) + (if IsOutcomeFor(last, reviewId) then [last.outcome] else [])
  }

  /** `outcome_for_review`. */
  function OutcomeForReview(events: seq<Event>, reviewId: string): Outcome<Option<OutcomeRecord>> {
    var matches := OutcomesFor(events, reviewId);
    if |matches| > 1 then Err(ManyOutcomes) else Ok(if matches == [] then None else Some(matches[0]))
  }

  /** What the log must never hold twice: a review id, or two outcomes of one
      review. */
  predicate Clash(a: Event, b: Event) {
    match (a, b)
    case (ReviewEvent(r), ReviewEvent(q)) => r.reviewId == q.reviewId
    case (OutcomeEvent(o), OutcomeEvent(p)) => o.reviewId == p.reviewId
    case _ => false
  }

  ghost predicate NoClash(events: seq<Event>) {
    forall i, j :: 0 <= i < j < |events| ==> !Clash(events[i], events[j])
  }

  /** The two checks of `append` together refuse exactly the clashes. */
  lemma RefusesExactlyTheClashes(events: seq<Event>, e: Event)
    ensures Refuses(events, e).None? <==> forall i :: 0 <= i < |events| ==> !Clash(events[i], e)
  {
    if Refuses(events, e).None? {
      forall i | 0 <= i < |events| ensures !Clash(events[i], e) {
        assert KeyOf(events[i]) != KeyOf(e);
        assert e.OutcomeEvent? ==> !IsOutcomeFor(events[i], e.outcome.reviewId);
      }
    } else if forall i :: 0 <= i < |events| ==> !Clash(events[i], e) {
      forall i | 0 <= i < |events|
        ensures KeyOf(events[i]) != KeyOf(e) && !(e.OutcomeEvent? && IsOutcomeFor(events[i], e.outcome.reviewId))
      {
        assert !Clash(events[i], e);
      }
    }
  }

  /** At least one, or at least two, outcomes of a review. */
  ghost predicate HasOutcome(events: seq<Event>, reviewId: string) {
    exists i :: 0 <= i < |events| && IsOutcomeFor(events[i], reviewId)
  }

  ghost predicate HasTwoOutcomes(events: seq<Event>, reviewId: string) {
    exists i, j :: 0 <= i < j < |events| && IsOutcomeFor(events[i], reviewId) && IsOutcomeFor(events[j], reviewId)
  }

  lemma OneMoreEvent(events: seq<Event>, e: Event, reviewId: string)
    ensures HasOutcome(events + [e], reviewId) <==> HasOutcome(events, reviewId) || IsOutcomeFor(e, reviewId)
    ensures HasTwoOutcomes(events + [e], reviewId) <==>
            HasTwoOutcomes(events, reviewId) || (HasOutcome(events, reviewId) && IsOutcomeFor(e, reviewId))
  {
    hide IsOutcomeFor;
    var n := |events|;
    var all := events + [e];
    assert all[n] == e && forall i :: 0 <= i < n ==> all[i] == events[i];
    if HasOutcome(events, reviewId) {
      var i :| 0 <= i < n && IsOutcomeFor(events[i], reviewId);
      assert IsOutcomeFor(all[i], reviewId);
      assert IsOutcomeFor(e, reviewId) ==> IsOutcomeFor(all[n], reviewId);
    }
    if HasTwoOutcomes(events, reviewId) {
      var i, j :| 0 <= i < j < n && IsOutcomeFor(events[i], reviewId) && IsOutcomeFor(events[j], reviewId);
      assert IsOutcomeFor(all[i], reviewId) && IsOutcomeFor(all[j], reviewId);
    }
    if HasTwoOutcomes(all, reviewId) {
      var i, j :| 0 <= i < j < |all| && IsOutcomeFor(all[i], reviewId) && IsOutcomeFor(all[j], reviewId);
      assert IsOutcomeFor(events[i], reviewId);
      assert if j == n then IsOutcomeFor(e, reviewId) else IsOutcomeFor(events[j], reviewId);
    }
  }

  /** `outcome_for_review` raises exactly in logs that hold two outcomes of the
      review; it answers nothing exactly when there is none, and otherwise with
      an outcome of that review from the log. */
  lemma {:induction false} OutcomeForReviewAnswers(events: seq<Event>, reviewId: string)
    ensures OutcomeForReview(events, reviewId).Err? <==> HasTwoOutcomes(events, reviewId)
    ensures OutcomesFor(events, reviewId) == [] <==> !HasOutcome(events, reviewId)
    ensures forall o :: o in OutcomesFor(events, reviewId) ==> OutcomeEvent(o) in events && o.reviewId == reviewId
  {
    if events != [] {
      var n := |events| - 1;
      OutcomeForReviewAnswers(events[..n], reviewId);
      OneMoreEvent(events[..n], events[n], reviewId);
      assert events[..n] + [events[n]] == events;
      hide HasOutcome, HasTwoOutcomes;
    }
  }

  /** A write succeeds, fails before its first byte, or leaves a torn line. */
  datatype Write = Succeeds | FailsBefore | FailsWithin

  class ManualReviewStore {
    var lines: seq<Line>

    constructor ()
      ensures lines == []
    {
      lines := [];
    }

    method Read() returns (out: Outcome<seq<Event>>)
      ensures out == ReadEvents(lines)
    {
      var events: seq<Event> := [];
      var i := 0;
      while i < |lines|
        invariant 0 <= i <= |lines| && ReadEvents(lines[..i]) == Ok(events)
      {
        assert lines[..i + 1][..i] == lines[..i];
        match lines[i] {
          case BlankLine =>
          case Record(event) => events := events + [event];
          case Invalid =>
            ReadStops(lines, i + 1);
            return Err(InvalidRecord);
        }
        i := i + 1;
      }
      assert lines[..i] == lines;
      return Ok(events);
    }

    /** `append`, with what becomes of its write. */
    method AppendRecord(e: Event, write: Write) returns (error: Option<JournalError>)
      modifies this
      ensures match Append(old(lines), e)
              case Err(reason) => error == Some(reason) && lines == old(lines)
              case Ok(longer) =>
                match write
                case Succeeds => error == None && lines == longer
                case FailsBefore => error == Some(WriteFailed) && lines == old(lines)
                case FailsWithin => error == Some(WriteFailed) && lines == old(lines) + [Invalid]
    {
      var events := Read();
      if events.Err? {
        return Some(events.error);
      }
      var refused := Refuses(events.value, e);
      if refused.Some? {
        return refused;
      }
      if write.FailsBefore? {
        return Some(WriteFailed);
      }
      if write.FailsWithin? {
        lines := lines + [Invalid];
        return Some(WriteFailed);
      }
      lines := lines + [Record(e)];
      return None;
    }

    method OutcomeFor(reviewId: string) returns (out: Outcome<Option<OutcomeRecord>>)
      ensures match ReadEvents(lines)
              case Err(e) => out == Err(e)
              case Ok(events) => out == OutcomeForReview(events, reviewId)
    {
      var events := Read();
      if events.Err? {
        return Err(events.error);
      }
      return OutcomeForReview(events.value, reviewId);
    }
  }

  /** An invalid line makes the whole file unreadable. */
  lemma {:induction false} ReadStops(lines: seq<Line>, k: nat)
    requires k <= |lines| && ReadEvents(lines[..k]).Err?
    ensures ReadEvents(lines) == ReadEvents(lines[..k])
    decreases |lines|
  {
    if k == |lines| {
      assert lines[..k] == lines;
    } else {
      var n := |lines| - 1;
      assert lines[..n][..k] == lines[..k];
      ReadStops(lines[..n], k);
    }
  }

  // ------------------------------------------------------------ request threads

  /** What a request thread was asked to do: the dashboard's two requests, or a
      direct append of an outcome the caller built itself. */
  datatype Job =
    | RecordReview(review: ReviewRecord)
    | RecordOutcome(reviewId: string, content: string)
    | AppendOutcome(outcome: OutcomeRecord)

  /** Where it is: its record is built without the lock; then it waits for the
      lock, holds it, has passed the checks, has written part of its line, has
      written all of it, and has left. */
  datatype Phase =
    | Start | Waiting(event: Event) | Locked(event: Event) | Checked(event: Event) | Writing(event: Event)
    | Written(event: Event) | Done(event: Event) | Raised(error: JournalError)

  datatype Thread = Thread(job: Job, phase: Phase)

  /** `torn` is set while the last line of the file is incomplete, and stays set
      when a write fails in the middle. */
  datatype Journal = Journal(events: seq<Event>, torn: bool, owner: Option<nat>, threads: seq<Thread>)

  /** One move of one thread. `unlucky`: an unlocked read meets an incomplete
      line, or a write fails. */
  datatype Move = Move(thread: nat, unlucky: bool)

  /** The outcome id: a digest of the payload. */
  type Digest = (string, string, string) -> string

  function FindReview(events: seq<Event>, reviewId: string): Option<ReviewRecord> {
    if events == [] then None
    else
      var last := events[|events| - 1];
      if last.ReviewEvent? && last.review.reviewId == reviewId then Some(last.review)
      else FindReview(events[..|events| - 1], reviewId)
  }

  /** The unlocked part of a request: what will be appended, or what was raised.
      A read beside a running write may or may not meet its incomplete line. */
  function Build(digest: Digest, s: Journal, job: Job, unlucky: bool): Phase {
    match job
    case RecordReview(r) => Waiting(ReviewEvent(r))
    case AppendOutcome(o) => Waiting(OutcomeEvent(o))
    case RecordOutcome(given, content) =>
      var reviewId := Strip(given);
      if reviewId == "" then Raised(MissingReviewId)
      else if s.torn && (s.owner.None? || unlucky) then Raised(InvalidRecord)
      else
        match FindReview(s.events, reviewId)
        case None => Raised(UnknownReview)
        case Some(r) => Waiting(OutcomeEvent(OutcomeRecord(digest(reviewId, r.signalId, content), reviewId, r.signalId,
          content)))
  }

  function SetPhase(s: Journal, t: nat, phase: Phase): Journal
    requires t < |s.threads|
  {
    s.(threads := s.threads[t := s.threads[t].(phase := phase)])
  }

  /** One atomic step of thread `t`. Without `locking` a waiting thread enters
      whether or not another one is inside. */
  function Step(digest: Digest, locking: bool, s: Journal, m: Move): Journal {
    if m.thread >= |s.threads| then s
    else
      var t := m.thread;
      match s.threads[t].phase
      case Start => SetPhase(s, t, Build(digest, s, s.threads[t].job, m.unlucky))
      case Waiting(e) => if locking && s.owner.Some? then s else SetPhase(s.(owner := Some(t)), t, Locked(e))
      case Locked(e) =>
        if s.torn then SetPhase(s.(owner := None), t, Raised(InvalidRecord))
        else if Refuses(s.events, e).Some? then SetPhase(s.(owner := None), t, Raised(Refuses(s.events, e).value))
        else SetPhase(s, t, Checked(e))
      case Checked(e) =>
        if m.unlucky then SetPhase(s.(owner := None), t, Raised(WriteFailed))
        else SetPhase(s.(torn := true), t, Writing(e))
      case Writing(e) =>
        if m.unlucky then SetPhase(s.(owner := None), t, Raised(WriteFailed))
        else SetPhase(s.(events := s.events + [e], torn := false), t, Written(e))
      case Written(e) => SetPhase(s.(owner := None), t, Done(e))
      case Done(_) => s
      case Raised(_) => s
  }

  /** Any number of threads with any jobs, none of which has moved yet. */
  function Initial(jobs: seq<Job>): Journal {
    Journal([], false, None, seq(|jobs|, i requires 0 <= i < |jobs| => Thread(jobs[i], Start)))
  }

  function RunSchedule(digest: Digest, locking: bool, jobs: seq<Job>, moves: seq<Move>): Journal {
    if moves == [] then Initial(jobs)
    else Step(digest, locking, RunSchedule(digest, locking, jobs, moves[..|moves| - 1]), moves[|moves| - 1])
  }

  // ------------------------------------------------------------ the invariant

  predicate Inside(p: Phase) {
    p.Locked? || p.Checked? || p.Writing? || p.Written?
  }

  /** Some review of the log has these ids. */
  ghost predicate HasReview(events: seq<Event>, reviewId: string, signalId: string) {
    exists i :: 0 <= i < |events| && events[i].ReviewEvent?
                && events[i].review.reviewId == reviewId && events[i].review.signalId == signalId
  }

  /** An outcome that the dashboard built names a review of the log, with its
      signal; any other outcome was handed in directly. */
  ghost predicate Accounted(events: seq<Event>, threads: seq<Thread>, e: Event) {
    e.OutcomeEvent? ==>
      HasReview(events, e.outcome.reviewId, e.outcome.signalId) || HandedIn(threads, e.outcome)
  }

  ghost predicate HandedIn(threads: seq<Thread>, o: OutcomeRecord) {
    exists t :: 0 <= t < |threads| && threads[t].job == AppendOutcome(o)
  }

  predicate Carries(p: Phase) {
    p.Waiting? || Inside(p) || p.Done?
  }

  /** Thread `t` holds the lock exactly while it is inside, an event past the
      checks does not clash with the log, only the writer tears the file, and a
      finished event is in the log. */
  ghost predicate ThreadOk(s: Journal, t: nat)
    requires t < |s.threads|
  {
    var p := s.threads[t].phase;
    && (Inside(p) <==> s.owner == Some(t))
    && (p.Checked? ==> !s.torn)
    && (p.Checked? || p.Writing? ==> Refuses(s.events, p.event).None?)
    && (p.Written? || p.Done? ==> p.event in s.events)
    && (Carries(p) ==> Accounted(s.events, s.threads, p.event))
  }

  ghost predicate Safe(s: Journal) {
    && NoClash(s.events)
    && (forall i :: 0 <= i < |s.events| ==> Accounted(s.events, s.threads, s.events[i]))
    && (forall t :: 0 <= t < |s.threads| ==> ThreadOk(s, t))
    && (s.owner.Some? ==> s.owner.value < |s.threads|)
  }

  lemma {:induction false} FindReviewFinds(events: seq<Event>, reviewId: string)
    ensures match FindReview(events, reviewId)
            case Some(r) => r.reviewId == reviewId && HasReview(events, reviewId, r.signalId)
            case None => forall i :: 0 <= i < |events| && events[i].ReviewEvent? ==>
              events[i].review.reviewId != reviewId
  {
    if events != [] {
      var n := |events| - 1;
      FindReviewFinds(events[..n], reviewId);
      if FindReview(events, reviewId).Some? {
        var signalId := FindReview(events, reviewId).value.signalId;
        if HasReview(events[..n], reviewId, signalId) {
          HasReviewGrows(events[..n], events[n], reviewId, signalId);
          assert events[..n] + [events[n]] == events;
        } else {
          assert events[n].review.reviewId == reviewId;
        }
      }
    }
  }

  lemma HasReviewGrows(events: seq<Event>, e: Event, reviewId: string, signalId: string)
    requires HasReview(events, reviewId, signalId)
    ensures HasReview(events + [e], reviewId, signalId)
  {
    var i :| 0 <= i < |events| && events[i].ReviewEvent? && events[i].review.reviewId == reviewId
      && events[i].review.signalId == signalId;
    assert (events + [e])[i] == events[i];
  }

  predicate SameJobs(before: seq<Thread>, after: seq<Thread>) {
    |before| == |after| && forall t :: 0 <= t < |before| ==> before[t].job == after[t].job
  }

  lemma AccountedGrows(before: Journal, after: Journal, e: Event)
    requires before.events <= after.events && SameJobs(before.threads, after.threads)
    requires Accounted(before.events, before.threads, e)
    ensures Accounted(after.events, after.threads, e)
  {
    if e.OutcomeEvent? {
      var o := e.outcome;
      if HandedIn(before.threads, o) {
        var t :| 0 <= t < |before.threads| && before.threads[t].job == AppendOutcome(o);
        assert after.threads[t].job == AppendOutcome(o);
      } else {
        var i :| 0 <= i < |before.events| && before.events[i].ReviewEvent?
                 && before.events[i].review.reviewId == o.reviewId && before.events[i].review.signalId == o.signalId;
        assert after.events[i] == before.events[i];
      }
    }
  }

  /** A step of `t` cannot disturb another thread: that one is outside the lock
      before and after. */
  lemma OthersAreUndisturbed(before: Journal, after: Journal, t: nat, u: nat)
    requires t < |before.threads| && u < |before.threads| && u != t && SameJobs(before.threads, after.threads)
    requires before.events <= after.events && after.threads[u] == before.threads[u] && ThreadOk(before, u)
    requires before.owner == Some(t) || before.owner == after.owner || (before.owner.None? && after.owner == Some(t))
    requires after.owner == before.owner || after.owner == Some(t) || after.owner.None?
    requires before.owner == Some(t) || (after.events == before.events && after.torn == before.torn)
    ensures ThreadOk(after, u)
  {
    var p := before.threads[u].phase;
    if Carries(p) {
      AccountedGrows(before, after, p.event);
    }
    hide Refuses, Accounted;
  }

  /** What a request built: an outcome of the dashboard names a review it read
      in the log. */
  lemma BuiltIsAccounted(digest: Digest, s: Journal, t: nat, unlucky: bool)
    requires t < |s.threads|
    ensures var p := Build(digest, s, s.threads[t].job, unlucky);
            (p.Waiting? || p.Raised?) && (p.Waiting? ==> Accounted(s.events, s.threads, p.event))
  {
    var job := s.threads[t].job;
    match job
    case RecordReview(_) =>
    case AppendOutcome(o) => assert HandedIn(s.threads, o);
    case RecordOutcome(given, _) => FindReviewFinds(s.events, Strip(given));
  }

  /** The step of the thread itself keeps its own facts. */
  lemma MoverIsOk(digest: Digest, s: Journal, m: Move)
    requires Safe(s) && m.thread < |s.threads|
    ensures var after := Step(digest, true, s, m); SameJobs(s.threads, after.threads) && ThreadOk(after, m.thread)
  {
    var t := m.thread;
    var after := Step(digest, true, s, m);
    assert ThreadOk(s, t);
    BuiltIsAccounted(digest, s, t, m.unlucky);
    hide Refuses, Accounted, Build, NoClash;
    var p := after.threads[t].phase;
    if Carries(s.threads[t].phase) && Carries(p) {
      assert p.event == s.threads[t].phase.event;
      AccountedGrows(s, after, p.event);
    } else if Carries(p) {
      AccountedGrows(s, after, p.event);
    }
  }

  lemma StepIsSafe(digest: Digest, s: Journal, m: Move)
    requires Safe(s)
    ensures Safe(Step(digest, true, s, m))
  {
    if m.thread < |s.threads| {
      var after := Step(digest, true, s, m);
      MoverIsOk(digest, s, m);
      StepFrame(digest, s, m);
      forall u | 0 <= u < |after.threads| ensures ThreadOk(after, u) {
        if u != m.thread {
          OthersAreUndisturbed(s, after, m.thread, u);
        }
      }
      LogStaysSafe(digest, s, m);
    }
  }

  /** What a step can change: only the lock's holder touches the file, and only
      the mover takes or leaves the lock. */
  lemma StepFrame(digest: Digest, s: Journal, m: Move)
    requires Safe(s) && m.thread < |s.threads|
    ensures var after := Step(digest, true, s, m);
            && s.events <= after.events && |after.threads| == |s.threads|
            && (forall u :: 0 <= u < |s.threads| && u != m.thread ==> after.threads[u] == s.threads[u])
            && (after.owner == s.owner || (s.owner == Some(m.thread) && after.owner.None?)
               || (s.owner.None? && after.owner == Some(m.thread)))
            && (s.owner == Some(m.thread) || (after.events == s.events && after.torn == s.torn))
  {
    assert ThreadOk(s, m.thread);
    hide Refuses, Accounted, Build, NoClash;
  }

  lemma LogStaysSafe(digest: Digest, s: Journal, m: Move)
    requires Safe(s) && m.thread < |s.threads|
    ensures var after := Step(digest, true, s, m);
            NoClash(after.events) && forall i :: 0 <= i < |after.events| ==>
              Accounted(after.events, after.threads, after.events[i])
  {
    var after := Step(digest, true, s, m);
    var p := s.threads[m.thread].phase;
    assert ThreadOk(s, m.thread);
    MoverIsOk(digest, s, m);
    StepFrame(digest, s, m);
    assert after.events == if p.Writing? && !m.unlucky then s.events + [p.event] else s.events;
    if p.Writing? {
      RefusesExactlyTheClashes(s.events, p.event);
    }
    hide Refuses, Build, Step;
    forall i | 0 <= i < |after.events| ensures Accounted(after.events, after.threads, after.events[i]) {
      AccountedGrows(s, after, after.events[i]);
    }
  }

  // ------------------------------------------------------------ all interleavings

  /** Every schedule of every set of requests keeps the journal safe. */
  lemma {:induction false} EveryScheduleIsSafe(digest: Digest, jobs: seq<Job>, moves: seq<Move>)
    ensures Safe(RunSchedule(digest, true, jobs, moves))
  {
    if moves != [] {
      EveryScheduleIsSafe(digest, jobs, moves[..|moves| - 1]);
      StepIsSafe(digest, RunSchedule(digest, true, jobs, moves[..|moves| - 1]), moves[|moves| - 1]);
    }
  }

  lemma {:induction false} JobsNeverChange(digest: Digest, locking: bool, jobs: seq<Job>, moves: seq<Move>)
    ensures var s := RunSchedule(digest, locking, jobs, moves);
            |s.threads| == |jobs| && forall t :: 0 <= t < |jobs| ==> s.threads[t].job == jobs[t]
  {
    if moves != [] {
      JobsNeverChange(digest, locking, jobs, moves[..|moves| - 1]);
      hide Build, Refuses;
    }
  }

  lemma SafeLogHasNoTwoOutcomes(events: seq<Event>, reviewId: string)
    requires NoClash(events)
    ensures !HasTwoOutcomes(events, reviewId)
  {
    assert forall i, j :: 0 <= i < j < |events| && !Clash(events[i], events[j]) ==>
                            !(IsOutcomeFor(events[i], reviewId) && IsOutcomeFor(events[j], reviewId));
  }

  /** Under every interleaving: no review id appears twice, no review has two
      outcomes, so `outcome_for_review` never raises on what was read; and every
      outcome names a review of the log with that review's signal, unless a
      caller handed that very outcome in. */
  lemma JournalUnderEveryInterleaving(digest: Digest, jobs: seq<Job>, moves: seq<Move>)
    ensures var events := RunSchedule(digest, true, jobs, moves).events;
            && (forall i, j :: 0 <= i < j < |events| ==> !Clash(events[i], events[j]))
            && (forall reviewId :: OutcomeForReview(events, reviewId).Ok?)
            && (forall i :: 0 <= i < |events| && events[i].OutcomeEvent? ==>
                  HasReview(events, events[i].outcome.reviewId, events[i].outcome.signalId)
                  || AppendOutcome(events[i].outcome) in jobs)
  {
    EveryScheduleIsSafe(digest, jobs, moves);
    JobsNeverChange(digest, true, jobs, moves);
    var s := RunSchedule(digest, true, jobs, moves);
    hide RunSchedule, ThreadOk;
    forall reviewId ensures OutcomeForReview(s.events, reviewId).Ok? {
      OutcomeForReviewAnswers(s.events, reviewId);
      SafeLogHasNoTwoOutcomes(s.events, reviewId);
    }
    hide OutcomeForReview, OutcomesFor;
    forall i | 0 <= i < |s.events| && s.events[i].OutcomeEvent?
      ensures HasReview(s.events, s.events[i].outcome.reviewId, s.events[i].outcome.signalId)
              || AppendOutcome(s.events[i].outcome) in jobs
    {
      assert Accounted(s.events, s.threads, s.events[i]);
      if HandedIn(s.threads, s.events[i].outcome) {
        var t :| 0 <= t < |s.threads| && s.threads[t].job == AppendOutcome(s.events[i].outcome);
        assert jobs[t] == AppendOutcome(s.events[i].outcome);
      }
    }
  }

  /** Nothing that was acknowledged is lost: the log only grows, and an event
      whose request finished stays in it. */
  lemma {:induction false} AcknowledgedEventsStay(digest: Digest, jobs: seq<Job>, moves: seq<Move>, k: nat)
    requires k <= |moves|
    ensures RunSchedule(digest, true, jobs, moves[..k]).events <= RunSchedule(digest, true, jobs, moves).events
    ensures var s := RunSchedule(digest, true, jobs, moves[..k]);
            forall t :: 0 <= t < |s.threads| && s.threads[t].phase.Done? ==>
                          s.threads[t].phase.event in RunSchedule(digest, true, jobs, moves).events
    decreases |moves|
  {
    var s := RunSchedule(digest, true, jobs, moves[..k]);
    EveryScheduleIsSafe(digest, jobs, moves[..k]);
    forall t | 0 <= t < |s.threads| && s.threads[t].phase.Done? ensures s.threads[t].phase.event in s.events {
      assert ThreadOk(s, t);
    }
    if k == |moves| {
      assert moves[..k] == moves;
    } else {
      var n := |moves| - 1;
      assert moves[..n][..k] == moves[..k];
      AcknowledgedEventsStay(digest, jobs, moves[..n], k);
      EveryScheduleIsSafe(digest, jobs, moves[..n]);
      var last := RunSchedule(digest, true, jobs, moves[..n]);
      assert moves[..n] + [moves[n]] == moves;
      AfterOneMore(digest, true, jobs, moves[..n], moves[n]);
      assert last.events <= RunSchedule(digest, true, jobs, moves).events by {
        if moves[n].thread < |last.threads| {
          StepFrame(digest, last, moves[n]);
        }
      }
      hide RunSchedule, Step;
      var all := RunSchedule(digest, true, jobs, moves).events;
      forall t | 0 <= t < |s.threads| && s.threads[t].phase.Done? ensures s.threads[t].phase.event in all {
        assert s.threads[t].phase.event in last.events;
        var i :| 0 <= i < |last.events| && last.events[i] == s.threads[t].phase.event;
        assert all[i] == last.events[i];
      }
    }
  }

  /** A thread that goes through its critical section without interruption does
      to the log what `append` does to the file. */
  lemma CriticalSectionIsAppend(digest: Digest, s: Journal, t: nat, lines: seq<Line>)
    requires t < |s.threads| && s.threads[t].phase.Waiting? && s.owner.None?
    requires ReadEvents(lines) == (if s.torn then Err(InvalidRecord) else Ok(s.events))
    ensures var e := s.threads[t].phase.event;
            var go := Move(t, false);
            var entered := Step(digest, true, Step(digest, true, s, go), go);
            var left := Step(digest, true, Step(digest, true, Step(digest, true, entered, go), go), go);
            match Append(lines, e)
            case Err(error) =>
              entered.threads[t].phase == Raised(error) && entered.events == s.events && entered.owner.None?
            case Ok(longer) =>
              left.threads[t].phase == Done(e) && ReadEvents(longer) == Ok(left.events) && left.owner.None?
  {
    hide Refuses;
    var e := s.threads[t].phase.event;
    assert (lines + [Record(e)])[..|lines|] == lines;
  }

  lemma AfterOneMore(digest: Digest, locking: bool, jobs: seq<Job>, moves: seq<Move>, m: Move)
    ensures RunSchedule(digest, locking, jobs, moves + [m])
            == Step(digest, locking, RunSchedule(digest, locking, jobs, moves), m)
  {
    assert (moves + [m])[..|moves|] == moves;
  }

  function TwoThreads(a: OutcomeRecord, p: Phase, b: OutcomeRecord, q: Phase): seq<Thread> {
    [Thread(AppendOutcome(a), p), Thread(AppendOutcome(b), q)]
  }

  /** Both threads pass the checks of `append` before either has written. */
  lemma BothPassTheChecks(digest: Digest, a: OutcomeRecord, b: OutcomeRecord) returns (moves: seq<Move>, s: Journal)
    ensures s == RunSchedule(digest, false, [AppendOutcome(a), AppendOutcome(b)], moves)
    ensures s == Journal([], false, Some(1), TwoThreads(a, Checked(OutcomeEvent(a)), b, Checked(OutcomeEvent(b))))
  {
    var jobs := [AppendOutcome(a), AppendOutcome(b)];
    var one, two := Move(0, false), Move(1, false);
    var ea, eb := OutcomeEvent(a), OutcomeEvent(b);
    moves, s := [], Initial(jobs);
    assert s == Journal([], false, None, TwoThreads(a, Start, b, Start));
    moves, s := OneMore(digest, jobs, moves, s, one);
    moves, s := OneMore(digest, jobs, moves, s, one);
    moves, s := OneMore(digest, jobs, moves, s, one);
    assert s == Journal([], false, Some(0), TwoThreads(a, Checked(ea), b, Start));
    moves, s := OneMore(digest, jobs, moves, s, two);
    moves, s := OneMore(digest, jobs, moves, s, two);
    moves, s := OneMore(digest, jobs, moves, s, two);
    assert s == Journal([], false, Some(1), TwoThreads(a, Checked(ea), b, Checked(eb)));
  }

  /** The lock is what makes it so: two requests that report an outcome for the
      same review, and both check before either has written, leave two outcomes
      in the log, and `outcome_for_review` raises from then on. */
  lemma WithoutTheLockOutcomesDouble(digest: Digest, a: OutcomeRecord, b: OutcomeRecord) returns (moves: seq<Move>)
    requires a.reviewId == b.reviewId
    ensures var events := RunSchedule(digest, false, [AppendOutcome(a), AppendOutcome(b)], moves).events;
            OutcomeForReview(events, a.reviewId) == Err(ManyOutcomes)
  {
    var jobs := [AppendOutcome(a), AppendOutcome(b)];
    var one, two := Move(0, false), Move(1, false);
    var ea, eb := OutcomeEvent(a), OutcomeEvent(b);
    var s;
    moves, s := BothPassTheChecks(digest, a, b);
    moves, s := OneMore(digest, jobs, moves, s, one);
    moves, s := OneMore(digest, jobs, moves, s, one);
    assert s == Journal([ea], false, Some(1), TwoThreads(a, Written(ea), b, Checked(eb)));
    moves, s := OneMore(digest, jobs, moves, s, two);
    moves, s := OneMore(digest, jobs, moves, s, two);
    assert s.events == [ea, eb];
    OutcomeForReviewAnswers(s.events, a.reviewId);
    assert IsOutcomeFor(s.events[0], a.reviewId) && IsOutcomeFor(s.events[1], a.reviewId);
    assert HasTwoOutcomes(s.events, a.reviewId);
  }

  lemma OneMore(digest: Digest, jobs: seq<Job>, moves: seq<Move>, s: Journal, m: Move)
    returns (longer: seq<Move>, after: Journal)
    requires s == RunSchedule(digest, false, jobs, moves)
    ensures after == Step(digest, false, s, m) && after == RunSchedule(digest, false, jobs, longer)
  {
    AfterOneMore(digest, false, jobs, moves, m);
    longer, after := moves + [m], Step(digest, false, s, m);
  }

  // ------------------------------------------------------------ what is written is what was asked

  /** The event a request is for: the review as it was given; the outcome as it
      was handed in; or an outcome of the named review with the reported content,
      its id the digest of them and the signal. */
  ghost predicate Answers(digest: Digest, job: Job, e: Event) {
    match job
    case RecordReview(r) => e == ReviewEvent(r)
    case AppendOutcome(o) => e == OutcomeEvent(o)
    case RecordOutcome(given, content) =>
      && e.OutcomeEvent? && e.outcome.reviewId == Strip(given) && e.outcome.content == content
      && e.outcome.outcomeId == digest(Strip(given), e.outcome.signalId, content)
  }

  /** The dashboard can build an outcome exactly when it is given a review id, can
      read the journal, and finds a review with that id, whose signal it takes. */
  lemma OutcomesAreBuiltExactlyWhen(digest: Digest, s: Journal, given: string, content: string, unlucky: bool)
    ensures var p := Build(digest, s, RecordOutcome(given, content), unlucky);
            && (p.Waiting? <==>
                  && Strip(given) != "" && !(s.torn && (s.owner.None? || unlucky))
                  && exists i ::
                       0 <= i < |s.events| && s.events[i].ReviewEvent? && s.events[i].review.reviewId == Strip(given))
            && (p.Waiting? ==>
                  Answers(digest, RecordOutcome(given, content), p.event)
                  && HasReview(s.events, Strip(given), p.event.outcome.signalId))
            && (!p.Waiting? ==> p.Raised?)
  {
    FindReviewFinds(s.events, Strip(given));
    hide Strip;
  }

  /** Some request that is through wrote this event. */
  ghost predicate WrittenBySome(s: Journal, e: Event) {
    exists t :: 0 <= t < |s.threads| && (s.threads[t].phase == Written(e) || s.threads[t].phase == Done(e))
  }

  ghost predicate Honest(digest: Digest, s: Journal) {
    && (forall t :: 0 <= t < |s.threads| && Carries(s.threads[t].phase) ==>
          Answers(digest, s.threads[t].job, s.threads[t].phase.event))
    && forall i :: 0 <= i < |s.events| ==> WrittenBySome(s, s.events[i])
  }

  lemma BuiltAnswers(digest: Digest, s: Journal, job: Job, unlucky: bool)
    ensures var p := Build(digest, s, job, unlucky);
            (p.Waiting? || p.Raised?) && (p.Waiting? ==> Answers(digest, job, p.event))
  {
    hide Strip;
  }

  /** One move: at most the moving thread's phase changes, it keeps its event,
      and the log grows by the event it writes. */
  lemma MoveKeepsEvents(digest: Digest, locking: bool, s: Journal, m: Move)
    requires m.thread < |s.threads|
    ensures var t, after := m.thread, Step(digest, locking, s, m);
            && |after.threads| == |s.threads|
            && (forall u :: 0 <= u < |s.threads| && u != t ==> after.threads[u] == s.threads[u])
            && var before, now := s.threads[t], after.threads[t];
            && now.job == before.job
            && (Carries(now.phase) ==>
                  (Carries(before.phase) && now.phase.event == before.phase.event)
                  || now.phase == Build(digest, s, before.job, m.unlucky))
            && (before.phase.Written? || before.phase.Done? ==>
                  (now.phase.Written? || now.phase.Done?) && now.phase.event == before.phase.event)
            && (after.events == s.events
                || (now.phase.Written? && after.events == s.events + [now.phase.event]))
  {
    hide Build, Refuses;
  }

  lemma StepIsHonest(digest: Digest, locking: bool, s: Journal, m: Move)
    requires Honest(digest, s)
    ensures Honest(digest, Step(digest, locking, s, m))
  {
    var t, after := m.thread, Step(digest, locking, s, m);
    if t < |s.threads| {
      BuiltAnswers(digest, s, s.threads[t].job, m.unlucky);
      MoveKeepsEvents(digest, locking, s, m);
      hide Build, Answers, Step;
      forall i | 0 <= i < |after.events| ensures WrittenBySome(after, after.events[i]) {
        if i < |s.events| {
          assert WrittenBySome(s, s.events[i]);
          var u :| 0 <= u < |s.threads|
            && (s.threads[u].phase == Written(s.events[i]) || s.threads[u].phase == Done(s.events[i]));
          assert after.threads[u].phase == Written(s.events[i]) || after.threads[u].phase == Done(s.events[i]);
        } else {
          assert after.threads[t].phase == Written(after.events[i]);
        }
      }
    }
  }

  /** Over every schedule, with the lock or without: the journal holds nothing
      but what some request asked for and got through, unaltered. */
  lemma {:induction false} JournalHoldsOnlyWhatWasAsked(digest: Digest, locking: bool, jobs: seq<Job>, moves: seq<Move>)
    ensures Honest(digest, RunSchedule(digest, locking, jobs, moves))
    ensures forall e :: e in RunSchedule(digest, locking, jobs, moves).events ==>
                          exists t :: 0 <= t < |jobs| && Answers(digest, jobs[t], e)
  {
    hide Step, Answers;
    if moves != [] {
      JournalHoldsOnlyWhatWasAsked(digest, locking, jobs, moves[..|moves| - 1]);
      StepIsHonest(digest, locking, RunSchedule(digest, locking, jobs, moves[..|moves| - 1]), moves[|moves| - 1]);
    }
    JobsNeverChange(digest, locking, jobs, moves);
    var s := RunSchedule(digest, locking, jobs, moves);
    hide RunSchedule;
    forall e | e in s.events ensures exists t :: 0 <= t < |jobs| && Answers(digest, jobs[t], e) {
      var i :| 0 <= i < |s.events| && s.events[i] == e;
      assert WrittenBySome(s, s.events[i]);
      var t :| 0 <= t < |s.threads| && (s.threads[t].phase == Written(e) || s.threads[t].phase == Done(e));
      assert Answers(digest, jobs[t], e);
    }
  }
}
