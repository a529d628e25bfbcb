/** The champion store: an append-only history file and a pointer file that
    `activate` writes one after the other, with nothing to tie the two writes
    together. An activation may be interrupted at any point of the two writes,
    and after them. */
module Champion {
  import opened Common

  datatype Moment = Moment(text: string, aware: bool)

  datatype ChampionRecord = ChampionRecord(
    version: string, status: string, activatedAt: Moment, experimentId: string,
    reviewFingerprint: string, parent: Option<string>, rollbackOf: Option<string>)

  /** The checks of the record's constructor. */
  predicate RecordOk(r: ChampionRecord) {
    && !Blank(r.version) && !Blank(r.status) && !Blank(r.activatedAt.text) && !Blank(r.experimentId)
    && !Blank(r.reviewFingerprint) && |r.reviewFingerprint| == 64
  }

  datatype PromotionDecision = PromotionDecision(promoted: bool, challenger: string, fingerprint: string)

  /** A line of the history file: a record with the fingerprint written beside
      it, or text that does not parse as one. */
  datatype Line = Entry(record: ChampionRecord, fingerprint: string) | Torn

  /** The pointer file is absent until it is first written. */
  datatype Store = Store(log: seq<Line>, pointer: Option<string>)

  const EMPTY: Store := Store([], None)

  datatype ChampionError =
    | UnreadableLine | FingerprintMissing | FingerprintMismatch | ParentMismatch | InitialHasParent
    | PointerWithoutHistory | PointerMismatch
    | NotPromoted | BadReviewFingerprint | BadTimestamp | DecisionMissing | DecisionNotPromoted
    | ChallengerMismatch | DecisionMismatch
    | UncheckedPointer | ParentRequired | NotSuccessor | AlreadyCurrent
    | Interrupted

  type Outcome<T> = Result<T, ChampionError>
  type Digest = ChampionRecord -> string

  ghost predicate DigestOk(digest: Digest) {
    forall r :: |digest(r)| == 64
  }

  /** The checks of `history` on one line, after the records before it. */
  function ReadLine(digest: Digest, before: seq<ChampionRecord>, line: Line): Outcome<ChampionRecord> {
    if line.Torn? then Err(UnreadableLine)
    else if line.fingerprint == "" then Err(FingerprintMissing)
    else if !RecordOk(line.record) then Err(UnreadableLine)
    else if line.fingerprint != digest(line.record) then Err(FingerprintMismatch)
    else if before != [] && line.record.parent != Some(before[|before| - 1].version) then Err(ParentMismatch)
    else if before == [] && line.record.parent.Some? then Err(InitialHasParent)
    else Ok(line.record)
  }

  /** `history`. */
  function History(digest: Digest, log: seq<Line>): (h: Outcome<seq<ChampionRecord>>)
    ensures h.Ok? ==> |h.value| == |log|
  {
    if log == [] then Ok([])
    else
      match History(digest, log[..|log| - 1])
      case Err(e) => Err(e)
      case Ok(before) =>
        match ReadLine(digest, before, log[|log| - 1])
        case Err(e) => Err(e)
        case Ok(r) => Ok(before + [r])
  }

  /** What reading a text file does to its line ends: CR LF and a lone CR become
      LF. Writing leaves them alone. */
  function ReadText(written: string): string {
    if written == "" then ""
    else if written[0] == '\r' then
      "\n" + ReadText(if |written| > 1 && written[1] == '\n' then written[2..] else written[1..])
    else [written[0]] + ReadText(written[1..])
  }

  /** The pointer as it is read: stripped, and absent when blank. */
  function ReadPointer(pointer: Option<string>): Option<string> {
    if pointer.None? then None
    else
      var text := ReadText(pointer.value);
      if Blank(text) then None else Some(Strip(text))
  }

  /** `current`. */
  function Current(digest: Digest, s: Store): Outcome<Option<string>> {
    match History(digest, s.log)
    case Err(e) => Err(e)
    case Ok(history) =>
      var pointer := ReadPointer(s.pointer);
      if history == [] then
        if pointer.Some? then Err(PointerWithoutHistory) else Ok(None)
      else if pointer != Some(history[|history| - 1].version) then Err(PointerMismatch)
      else Ok(pointer)
  }

  /** Where an activation stops: it returns, stops before its first byte is
      written, leaves a torn line, stops between the two writes, or stops with
      the first characters of the pointer written, possibly all of them. A line
      that lacks only its newline reads as written, and a pointer file that
      cannot be opened was not written. */
  datatype Crash = Completes | NothingWritten | TornLine | BetweenWrites | DuringPointer(written: nat)

  /** Both files are complete, whether or not `activate` still returned. */
  predicate BothWritten(r: ChampionRecord, crash: Crash) {
    crash.Completes? || (crash.DuringPointer? && crash.written >= |r.version|)
  }

  /** What the pointer write leaves in its file. */
  function PointerText(r: ChampionRecord, crash: Crash): string {
    if crash.DuringPointer? && crash.written < |r.version| then r.version[..crash.written] else r.version
  }

  /** Everything `activate` checks before it writes, in its order. */
  function Admit(digest: Digest, s: Store, r: ChampionRecord,
      decision: Option<PromotionDecision>): Option<ChampionError> {
    if r.status != "PROMOTED" then Some(NotPromoted)
    else if |r.reviewFingerprint| != 64 then Some(BadReviewFingerprint)
    else if !r.activatedAt.aware then Some(BadTimestamp)
    else if decision.None? then Some(DecisionMissing)
    else if !decision.value.promoted then Some(DecisionNotPromoted)
    else if decision.value.challenger != r.version then Some(ChallengerMismatch)
    else if decision.value.fingerprint != r.reviewFingerprint then Some(DecisionMismatch)
    else
      match (History(digest, s.log), Current(digest, s))
      case (Err(e), _) => Some(e)
      case (_, Err(e)) => Some(e)
      case (Ok(prior), Ok(current)) =>
        if prior != [] && current != Some(prior[|prior| - 1].version) then Some(UncheckedPointer)
        else if prior != [] && r.parent.None? then Some(ParentRequired)
        else if prior != [] && r.parent != Some(prior[|prior| - 1].version) then Some(NotSuccessor)
        else if prior == [] && current.Some? then Some(UncheckedPointer)
        else if Some(r.version) == current then Some(AlreadyCurrent)
        else None
  }

  /** The two writes of `activate`, as far as they get. */
  function WriteBoth(digest: Digest, s: Store, r: ChampionRecord, crash: Crash): Store {
    var logged := s.log + [Entry(r, digest(r))];
    match crash
    case NothingWritten => s
    case TornLine => Store(s.log + [Torn], s.pointer)
    case BetweenWrites => Store(logged, s.pointer)
    case _ => Store(logged, Some(PointerText(r, crash)))
  }

  /** `activate`, with the store it leaves. */
  function Activate(digest: Digest, s: Store, r: ChampionRecord, decision: Option<PromotionDecision>, crash: Crash)
    : (Store, Option<ChampionError>)
  {
    match Admit(digest, s, r, decision)
    case Some(e) => (s, Some(e))
    case None => (WriteBoth(digest, s, r, crash), if crash.Completes? then None else Some(Interrupted))
  }

  /** The store can be read, and so can be activated on. */
  predicate Readable(digest: Digest, s: Store) {
    Current(digest, s).Ok?
  }

  /** What being readable means: a fingerprinted chain of parents without a
      root parent, and a pointer that reads as the last version. */
  lemma {:induction false} ReadableMeansAChain(digest: Digest, s: Store)
    ensures Readable(digest, s) <==>
            && Chain(digest, s.log)
            && ReadPointer(s.pointer) == (if s.log == [] then None else Some(s.log[|s.log| - 1].record.version))
  {
    HistoryReadsAChain(digest, s.log);
  }

  predicate Linked(log: seq<Line>, i: nat)
    requires i < |log|
  {
    log[i].Entry? && (i > 0 ==> log[i - 1].Entry?)
    && log[i].record.parent == (if i == 0 then None else Some(log[i - 1].record.version))
  }

  predicate Chain(digest: Digest, log: seq<Line>) {
    forall i :: 0 <= i < |log| ==>
                  && Linked(log, i) && RecordOk(log[i].record)
                  && log[i].fingerprint != "" && log[i].fingerprint == digest(log[i].record)
  }

  lemma {:induction false} HistoryReadsAChain(digest: Digest, log: seq<Line>)
    ensures History(digest, log).Ok? <==> Chain(digest, log)
    ensures History(digest, log).Ok? ==>
              forall i :: 0 <= i < |log| ==> log[i].Entry? && History(digest, log).value[i] == log[i].record
  {
    hide RecordOk, Linked;
    if log != [] {
      var n := |log| - 1;
      var before := log[..n];
      HistoryReadsAChain(digest, before);
      forall i | 0 <= i < n
        ensures Linked(before, i) <==> Linked(log, i)
      {
        LinkedPrefix(log, n, i);
      }
      assert forall i :: 0 <= i < n ==> before[i] == log[i];
      assert Chain(digest, log) <==> Chain(digest, before) && LastOk(digest, log);
      if History(digest, before).Ok? {
        LastLineReads(digest, log, History(digest, before).value);
      }
    }
  }

  lemma LinkedPrefix(log: seq<Line>, n: nat, i: nat)
    requires i < n <= |log|
    ensures Linked(log[..n], i) <==> Linked(log, i)
  {
  }

  predicate LastOk(digest: Digest, log: seq<Line>)
    requires log != []
  {
    var last := log[|log| - 1];
    Linked(log, |log| - 1) && RecordOk(last.record) && last.fingerprint != "" && last.fingerprint == digest(last.record)
  }

  lemma LastLineReads(digest: Digest, log: seq<Line>, before: seq<ChampionRecord>)
    requires log != [] && |before| == |log| - 1
    requires forall i :: 0 <= i < |before| ==> log[i].Entry? && before[i] == log[i].record
    ensures ReadLine(digest, before, log[|log| - 1]).Ok? <==> LastOk(digest, log)
  {
    hide RecordOk;
  }

  /** What `activate` does not check, and `history` and `current` demand: the
      first record has no parent, and the version reads back as it was written,
      so it has no surrounding blanks and no carriage return. */
  predicate Sound(s: Store, r: ChampionRecord) {
    (s.log == [] ==> r.parent.None?) && Strip(r.version) == r.version && '\r' !in r.version
  }

  /** Nothing was written, or everything was, with a sound record. */
  predicate Harmless(s: Store, r: ChampionRecord, crash: Crash) {
    crash.NothingWritten? || (BothWritten(r, crash) && Sound(s, r))
  }

  /** From a readable store, an admitted activation leaves a readable store
      exactly when it wrote nothing, or completed both writes with a sound
      record, whether or not it then returned. */
  lemma {:induction false} ActivationKeepsReadableExactlyWhen(digest: Digest, s: Store, r: ChampionRecord,
                                                              decision: Option<PromotionDecision>, crash: Crash)
    requires DigestOk(digest) && RecordOk(r) && Admit(digest, s, r, decision).None?
    ensures Readable(digest, Activate(digest, s, r, decision, crash).0) <==>
            Harmless(s, r, crash)
    ensures BothWritten(r, crash) && Sound(s, r) ==>
            Current(digest, Activate(digest, s, r, decision, crash).0) == Ok(Some(r.version))
  {
    hide Admit, History, RecordOk, Strip, Current, ReadPointer;
    AdmittedMeans(digest, s, r, decision);
    LogGrows(digest, s.log, r);
    WrittenPointer(r, crash);
    var after := WriteBoth(digest, s, r, crash);
    if History(digest, after.log).Err? {
      UnreadableLog(digest, after);
    } else if !crash.NothingWritten? {
      CurrentOf(digest, after, History(digest, s.log).value, r);
    }
  }

  lemma {:induction false} ReadTextFacts(written: string)
    ensures |ReadText(written)| <= |written| && '\r' !in ReadText(written)
    ensures ReadText(written) == written <==> '\r' !in written
    decreases |written|
  {
    if written != "" {
      ReadTextFacts(written[1..]);
      if |written| > 1 {
        ReadTextFacts(written[2..]);
      }
      assert written == [written[0]] + written[1..];
    }
  }

  lemma {:induction false} TrimKeepsOut(t: string, c: char)
    requires c !in t
    ensures c !in TrimLeft(t) && c !in TrimRight(t)
    decreases |t|
  {
    if t != "" {
      TrimKeepsOut(t[1..], c);
      TrimKeepsOut(t[..|t| - 1], c);
    }
  }

  /** A version reads back as itself exactly when it is its own stripped text
      and has no carriage return, and no proper prefix of it ever does. */
  lemma WrittenPointer(r: ChampionRecord, crash: Crash)
    requires RecordOk(r)
    ensures ReadPointer(Some(r.version)) == Some(r.version) <==> Strip(r.version) == r.version && '\r' !in r.version
    ensures crash.DuringPointer? && crash.written < |r.version| ==>
              ReadPointer(Some(PointerText(r, crash))) != Some(r.version)
  {
    NotBlank(r);
    hide RecordOk;
    var text := ReadText(r.version);
    ReadTextFacts(r.version);
    TrimKeepsOut(text, '\r');
    TrimKeepsOut(TrimLeft(text), '\r');
    var written := PointerText(r, crash);
    ReadTextFacts(written);
    StripIsNoLonger(ReadText(written));
    hide ReadText, TrimLeft, TrimRight;
  }

  lemma NotBlank(r: ChampionRecord)
    requires RecordOk(r)
    ensures !Blank(r.version) && r.version != ""
  {
    hide TrimRight;
    assert TrimLeft("") == "";
    EmptyIsBlank();
  }

  lemma EmptyIsBlank()
    ensures Blank("")
  {
  }

  lemma UnreadableLog(digest: Digest, s: Store)
    requires History(digest, s.log).Err?
    ensures !Readable(digest, s)
  {
    hide History;
  }

  lemma CurrentOf(digest: Digest, s: Store, before: seq<ChampionRecord>, last: ChampionRecord)
    requires History(digest, s.log) == Ok(before + [last])
    ensures Readable(digest, s) <==> ReadPointer(s.pointer) == Some(last.version)
    ensures Readable(digest, s) ==> Current(digest, s) == Ok(Some(last.version))
  {
    hide History, ReadPointer;
    var all := before + [last];
    assert all[|all| - 1] == last;
  }

  /** What an admitted record may rely on. */
  lemma AdmittedMeans(digest: Digest, s: Store, r: ChampionRecord, decision: Option<PromotionDecision>)
    requires Admit(digest, s, r, decision).None?
    ensures Readable(digest, s) && History(digest, s.log).Ok? && Some(r.version) != ReadPointer(s.pointer)
    ensures var prior := History(digest, s.log).value;
            prior != [] ==> r.parent == Some(prior[|prior| - 1].version)
  {
    hide History, RecordOk;
  }

  /** How `history` reads a log with one more line. */
  lemma LogGrows(digest: Digest, log: seq<Line>, r: ChampionRecord)
    requires History(digest, log).Ok? && RecordOk(r) && |digest(r)| == 64
    requires var prior := History(digest, log).value; prior != [] ==> r.parent == Some(prior[|prior| - 1].version)
    ensures var longer := History(digest, log + [Entry(r, digest(r))]);
            && (longer.Ok? <==> (log == [] ==> r.parent.None?))
            && (longer.Ok? ==> longer.value == History(digest, log).value + [r])
    ensures History(digest, log + [Torn]).Err?
  {
    HistorySnoc(digest, log, Entry(r, digest(r)));
    HistorySnoc(digest, log, Torn);
    hide RecordOk, History;
  }

  lemma HistorySnoc(digest: Digest, log: seq<Line>, line: Line)
    ensures History(digest, log + [line]) ==
            match History(digest, log)
            case Err(e) => Err(e)
            case Ok(before) =>
              match ReadLine(digest, before, line)
              case Err(e) => Err(e)
              case Ok(r) => Ok(before + [r])
  {
    hide ReadLine;
    var longer := log + [line];
    assert longer[..|longer| - 1] == log && longer[|longer| - 1] == line;
  }

  lemma {:induction false} TrimIsNoLonger(t: string)
    ensures |TrimLeft(t)| <= |t| && |TrimRight(t)| <= |t|
    decreases |t|
  {
    if t != "" {
      TrimIsNoLonger(t[1..]);
      TrimIsNoLonger(t[..|t| - 1]);
    }
  }

  lemma StripIsNoLonger(t: string)
    ensures |Strip(t)| <= |t|
  {
    TrimIsNoLonger(t);
    TrimIsNoLonger(TrimLeft(t));
  }

  /** `activate` repeats two of the checks that `current` has already made:
      those branches never raise. */
  lemma RepeatedPointerChecksNeverRaise(digest: Digest, s: Store, r: ChampionRecord,
      decision: Option<PromotionDecision>)
    ensures Admit(digest, s, r, decision) != Some(UncheckedPointer)
  {
    HistoryErrors(digest, s.log);
  }

  lemma {:induction false} HistoryErrors(digest: Digest, log: seq<Line>)
    ensures History(digest, log) != Err(UncheckedPointer)
  {
    if log != [] {
      HistoryErrors(digest, log[..|log| - 1]);
    }
  }

  /** One attempt on any store: a readable store stays readable exactly when
      the attempt is refused, writes nothing, or writes everything with a sound
      record; an unreadable one refuses and keeps its files. */
  lemma {:induction false} AttemptFacts(digest: Digest, s: Store, r: ChampionRecord,
      decision: Option<PromotionDecision>, crash: Crash)
    requires DigestOk(digest) && RecordOk(r)
    ensures var (after, error) := Activate(digest, s, r, decision, crash);
            && (Admit(digest, s, r, decision).Some? ==> after == s && error.Some?)
            && (Admit(digest, s, r, decision).None? ==> Readable(digest, s) && (error.None? <==> crash.Completes?))
            && (Readable(digest, after) <==>
                  Readable(digest, s) && (Admit(digest, s, r, decision).Some? || Harmless(s, r, crash)))
            && (Admit(digest, s, r, decision).None? && crash.NothingWritten? ==> after == s)
            && (Readable(digest, after) && Admit(digest, s, r, decision).None? && !crash.NothingWritten? ==>
                  && BothWritten(r, crash)
                  && after.log == s.log + [Entry(r, digest(r))] && Current(digest, after) == Ok(Some(r.version)))
  {
    if Admit(digest, s, r, decision).None? {
      ActivationKeepsReadableExactlyWhen(digest, s, r, decision, crash);
      hide Current, Sound, RecordOk;
    }
  }

  // ------------------------------------------------------------ what admission demands

  /** The promotion decision is one, and names exactly this record: its version
      as the challenger, its review by fingerprint. */
  ghost predicate Accredited(r: ChampionRecord, decision: Option<PromotionDecision>) {
    && r.status == "PROMOTED" && r.activatedAt.aware && |r.reviewFingerprint| == 64
    && decision.Some? && decision.value.promoted
    && decision.value.challenger == r.version && decision.value.fingerprint == r.reviewFingerprint
  }

  /** The record succeeds the last one, which is another version. */
  ghost predicate Succeeds(s: Store, r: ChampionRecord) {
    s.log != [] ==>
      var last := s.log[|s.log| - 1];
      last.Entry? && r.parent == Some(last.record.version) && r.version != last.record.version
  }

  /** The call was refused before it wrote anything. */
  ghost predicate Refused(error: Option<ChampionError>) {
    error.Some? && error.value != Interrupted
  }

  /** An activation is refused exactly when the store cannot be read, the record
      is not accredited by a promoted decision, or it does not succeed the
      champion. */
  lemma ActivationIsRefusedExactlyWhen(digest: Digest, s: Store, r: ChampionRecord, decision: Option<PromotionDecision>,
                                       crash: Crash)
    ensures Refused(Activate(digest, s, r, decision, crash).1)
            <==> !(Readable(digest, s) && Accredited(r, decision) && Succeeds(s, r))
    ensures Activate(digest, s, r, decision, crash).0 != s || Activate(digest, s, r, decision, crash).1.None? ==>
              Accredited(r, decision) && Succeeds(s, r)
  {
    HistoryNeverInterrupts(digest, s.log);
    if Readable(digest, s) {
      HistoryReadsAChain(digest, s.log);
    }
    hide History, RecordOk, ReadPointer, Chain;
  }

  lemma {:induction false} HistoryNeverInterrupts(digest: Digest, log: seq<Line>)
    ensures History(digest, log) != Err(Interrupted)
  {
    if log != [] {
      HistoryNeverInterrupts(digest, log[..|log| - 1]);
    }
  }

  function Promotion(version: string, parent: Option<string>, review: string): ChampionRecord {
    ChampionRecord(version, "PROMOTED", Moment("2025-01-01T00:00:00+00:00", true), "e1", review, parent, None)
  }

  lemma PromotionIsOk(version: string, parent: Option<string>, review: string)
    requires !Blank(version) && |review| == 64 && !Blank(review)
    ensures RecordOk(Promotion(version, parent, review))
  {
    StripOfTight("PROMOTED");
    StripOfTight("e1");
    var moment := "2025-01-01T00:00:00+00:00";
    assert moment[|moment| - 1] == '0';
    StripOfTight(moment);
    hide Strip;
  }

  /** Every condition is needed: the empty store admits a first record that
      names a parent, a version with a trailing blank, and one with an inner
      carriage return, and after any of them the store can never be read again. */
  lemma UnsoundRecordsAreAdmitted(digest: Digest, parent: string, review: string)
    requires DigestOk(digest) && |review| == 64 && !Blank(review)
    ensures FirstActivationBreaks(digest, Promotion("m1", Some(parent), review))
    ensures FirstActivationBreaks(digest, Promotion("m1 ", None, review))
    ensures FirstActivationBreaks(digest, Promotion("m1\rv2", None, review))
  {
    StripOfTight("m1");
    StripOfTight("m1\rv2");
    assert "m1\rv2"[2] == '\r';
    assert Strip("m1 ") == "m1" by {
      assert TrimLeft("m1 ") == "m1 ";
      assert "m1 "[..2] == "m1";
    }
    PromotionIsOk("m1", Some(parent), review);
    PromotionIsOk("m1 ", None, review);
    PromotionIsOk("m1\rv2", None, review);
    hide RecordOk, Strip, Readable, Activate;
    FirstActivation(digest, Promotion("m1", Some(parent), review));
    FirstActivation(digest, Promotion("m1 ", None, review));
    FirstActivation(digest, Promotion("m1\rv2", None, review));
  }

  predicate FirstActivationBreaks(digest: Digest, r: ChampionRecord) {
    var (after, error) := Activate(digest, EMPTY, r, Some(PromotionDecision(true, r.version, r.reviewFingerprint)),
      Completes);
    RecordOk(r) && error.None? && !Readable(digest, after)
  }

  lemma FirstActivation(digest: Digest, r: ChampionRecord)
    requires DigestOk(digest) && RecordOk(r) && r.status == "PROMOTED" && r.activatedAt.aware
    ensures FirstActivationBreaks(digest, r) <==> !Sound(EMPTY, r)
  {
    ActivationKeepsReadableExactlyWhen(digest, EMPTY, r, Some(PromotionDecision(true, r.version, r.reviewFingerprint)),
      Completes);
  }

  // ------------------------------------------------------------ runs with crashes

  datatype Attempt = Attempt(record: ChampionRecord, decision: Option<PromotionDecision>, crash: Crash)

  ghost predicate AttemptsOk(attempts: seq<Attempt>) {
    forall i :: 0 <= i < |attempts| ==> RecordOk(attempts[i].record)
  }

  /** The store after the attempts, the versions whose two writes were both
      completed, and those whose `activate` also returned normally. */
  datatype Past = Past(store: Store, written: seq<string>, returned: seq<string>)

  function Run(digest: Digest, attempts: seq<Attempt>): Past {
    if attempts == [] then Past(EMPTY, [], [])
    else After(digest, Run(digest, attempts[..|attempts| - 1]), attempts[|attempts| - 1])
  }

  /** One more attempt. */
  function After(digest: Digest, before: Past, a: Attempt): Past {
    var (after, error) := Activate(digest, before.store, a.record, a.decision, a.crash);
    var complete := Admit(digest, before.store, a.record, a.decision).None? && BothWritten(a.record, a.crash);
    Past(after, if complete then before.written + [a.record.version] else before.written,
             if error.None? then before.returned + [a.record.version] else before.returned)
  }

  function Versions(log: seq<Line>): seq<string> {
    seq(|log|, i requires 0 <= i < |log| => if log[i].Entry? then log[i].record.version else "")
  }

  /** An unreadable store refuses every activation and keeps its files: it stays
      unreadable whatever is attempted. */
  lemma {:induction false} UnreadableForever(digest: Digest, attempts: seq<Attempt>, k: nat)
    requires k <= |attempts| && !Readable(digest, Run(digest, attempts[..k]).store)
    ensures Run(digest, attempts) == Run(digest, attempts[..k])
    decreases |attempts|
  {
    if k == |attempts| {
      assert attempts[..k] == attempts;
    } else {
      var shorter := attempts[..|attempts| - 1];
      assert shorter[..k] == attempts[..k];
      UnreadableForever(digest, shorter, k);
    }
  }

  /** The last attempt of a run. */
  lemma RunUnfolds(digest: Digest, attempts: seq<Attempt>)
    requires attempts != []
    ensures Run(digest, attempts) == After(digest, Run(digest, attempts[..|attempts| - 1]), attempts[|attempts| - 1])
  {
    hide After;
  }

  /** Whatever crashes happened before: `current` either raises or answers with
      the version of the last activation that completed both writes, and then
      the history lists exactly those. Every activation that returned normally
      is among them. An activation stopped before the end of its writes is never
      visible, and no stale version is. */
  lemma {:induction false} CurrentIsTheLastCompletedActivation(digest: Digest, attempts: seq<Attempt>)
    requires DigestOk(digest) && AttemptsOk(attempts)
    ensures var past := Run(digest, attempts);
            && multiset(past.returned) <= multiset(past.written)
            && (Readable(digest, past.store) ==>
                  && Versions(past.store.log) == past.written && Chain(digest, past.store.log)
                  && Current(digest, past.store) == Ok(LastOf(past.written)))
  {
    hide Visible;
    CompletedIsVisible(digest, attempts);
    var past := Run(digest, attempts);
    hide Run;
    ReadableMeansAChain(digest, past.store);
    VisibleMeans(digest, past);
  }

  function LastOf(versions: seq<string>): Option<string> {
    if versions == [] then None else Some(versions[|versions| - 1])
  }

  /** What is visible of the store is what was completely written. */
  ghost predicate Visible(digest: Digest, past: Past) {
    && multiset(past.returned) <= multiset(past.written)
    && (Readable(digest, past.store) ==>
          Versions(past.store.log) == past.written && Current(digest, past.store) == Ok(LastOf(past.written)))
  }

  lemma VisibleMeans(digest: Digest, past: Past)
    requires Visible(digest, past)
    ensures multiset(past.returned) <= multiset(past.written)
    ensures Readable(digest, past.store) ==>
              Versions(past.store.log) == past.written && Current(digest, past.store) == Ok(LastOf(past.written))
  {
  }

  lemma {:induction false} CompletedIsVisible(digest: Digest, attempts: seq<Attempt>)
    requires DigestOk(digest) && AttemptsOk(attempts)
    ensures Visible(digest, Run(digest, attempts))
  {
    if attempts == [] {
      assert Current(digest, EMPTY) == Ok(None);
    } else {
      var n := |attempts| - 1;
      RunUnfolds(digest, attempts);
      hide Run, Visible, After;
      CompletedIsVisible(digest, attempts[..n]);
      AttemptIsVisible(digest, Run(digest, attempts[..n]), attempts[n]);
    }
  }

  lemma AttemptIsVisible(digest: Digest, past: Past, a: Attempt)
    requires DigestOk(digest) && RecordOk(a.record) && Visible(digest, past)
    ensures Visible(digest, After(digest, past, a))
  {
    AttemptFacts(digest, past.store, a.record, a.decision, a.crash);
    VersionsGrow(past.store.log, a.record, digest(a.record));
    hide Activate, Admit, Current, RecordOk, Sound, Versions;
  }

  lemma VersionsGrow(log: seq<Line>, r: ChampionRecord, fingerprint: string)
    ensures Versions(log + [Entry(r, fingerprint)]) == Versions(log) + [r.version]
  {
  }

  /** The store is readable after a run exactly when every admitted activation
      of the run wrote nothing, or wrote everything with a sound record. */
  lemma {:induction false} ReadableExactlyWhen(digest: Digest, attempts: seq<Attempt>)
    requires DigestOk(digest) && AttemptsOk(attempts)
    ensures Readable(digest, Run(digest, attempts).store) <==>
            forall k :: 0 <= k < |attempts| ==> HarmlessAttempt(digest, attempts, k)
  {
    hide HarmlessAttempt, Readable, Run;
    if attempts == [] {
      EmptyIsReadable(digest);
    } else {
      var n := |attempts| - 1;
      ReadableExactlyWhen(digest, attempts[..n]);
      LastAttemptDecides(digest, attempts, n);
      forall k | 0 <= k < n ensures HarmlessAttempt(digest, attempts[..n], k)
        <==> HarmlessAttempt(digest, attempts, k) {
        HarmlessPrefix(digest, attempts, n, k);
      }
    }
  }

  lemma EmptyIsReadable(digest: Digest)
    ensures Readable(digest, Run(digest, []).store)
  {
  }

  lemma LastAttemptDecides(digest: Digest, attempts: seq<Attempt>, n: nat)
    requires DigestOk(digest) && AttemptsOk(attempts) && |attempts| == n + 1
    ensures Readable(digest, Run(digest, attempts).store) <==>
            Readable(digest, Run(digest, attempts[..n]).store) && HarmlessAttempt(digest, attempts, n)
  {
    RunUnfolds(digest, attempts);
    var s, last := Run(digest, attempts[..n]).store, attempts[n];
    assert Run(digest, attempts).store == Activate(digest, s, last.record, last.decision, last.crash).0;
    hide Run, After, Activate, Admit, Current, RecordOk, Sound;
    AttemptFacts(digest, s, last.record, last.decision, last.crash);
  }

  lemma HarmlessPrefix(digest: Digest, attempts: seq<Attempt>, n: nat, k: nat)
    requires k < n <= |attempts|
    ensures HarmlessAttempt(digest, attempts[..n], k) <==> HarmlessAttempt(digest, attempts, k)
  {
    assert attempts[..n][..k] == attempts[..k];
    hide Run, Admit, Sound;
  }

  /** The k-th attempt was refused, wrote nothing, or wrote everything with a
      sound record. */
  ghost predicate HarmlessAttempt(digest: Digest, attempts: seq<Attempt>, k: nat)
    requires k < |attempts|
  {
    var s := Run(digest, attempts[..k]).store;
    var a := attempts[k];
    Admit(digest, s, a.record, a.decision).Some? || Harmless(s, a.record, a.crash)
  }

  /** The line was written by an attempt with a promoted decision for exactly
      this record. */
  ghost predicate ComesFrom(line: Line, attempts: seq<Attempt>) {
    exists k :: 0 <= k < |attempts| && line.Entry? && attempts[k].record == line.record
                && Accredited(line.record, attempts[k].decision)
  }

  /** Over runs: every entry of the log, readable or not, comes from an attempt
      that was accredited for exactly that version and review. */
  lemma {:induction false} EveryEntryIsAccredited(digest: Digest, attempts: seq<Attempt>)
    ensures forall i :: 0 <= i < |Run(digest, attempts).store.log| && Run(digest, attempts).store.log[i].Entry? ==>
                          ComesFrom(Run(digest, attempts).store.log[i], attempts)
  {
    if attempts != [] {
      var n := |attempts| - 1;
      EveryEntryIsAccredited(digest, attempts[..n]);
      RunUnfolds(digest, attempts);
      var s, a := Run(digest, attempts[..n]).store, attempts[n];
      var after := Activate(digest, s, a.record, a.decision, a.crash).0;
      ActivationIsRefusedExactlyWhen(digest, s, a.record, a.decision, a.crash);
      LogAfter(digest, s, a);
      hide Run, Activate, Accredited, Succeeds;
      forall i | 0 <= i < |after.log| && after.log[i].Entry? ensures ComesFrom(after.log[i], attempts) {
        if i < |s.log| {
          var k :| 0 <= k < n && attempts[..n][k].record == s.log[i].record
            && Accredited(s.log[i].record, attempts[..n][k].decision);
          assert attempts[k] == attempts[..n][k] && after.log[i] == s.log[i];
        }
      }
    }
  }

  lemma LogAfter(digest: Digest, s: Store, a: Attempt)
    ensures var after := Activate(digest, s, a.record, a.decision, a.crash).0;
            && s.log <= after.log && |after.log| <= |s.log| + 1
            && (|after.log| == |s.log| + 1 ==>
                  after.log[|s.log|] == Entry(a.record, digest(a.record)) || after.log[|s.log|] == Torn)
  {
    hide Admit;
  }

  // ------------------------------------------------------------ the object

  class ChampionStore {
    const digest: Digest
    var log: seq<Line>
    var pointer: Option<string>

    ghost function View(): Store
      reads this
    {
      Store(log, pointer)
    }

    constructor (digest: Digest)
      ensures this.digest == digest && View() == EMPTY
    {
      this.digest, log, pointer := digest, [], None;
    }

    method ReadHistory() returns (out: Outcome<seq<ChampionRecord>>)
      ensures out == History(digest, log)
    {
      hide ReadLine;
      var records: seq<ChampionRecord> := [];
      var i := 0;
      while i < |log|
        invariant 0 <= i <= |log| && History(digest, log[..i]) == Ok(records)
      {
        assert log[..i + 1][..i] == log[..i];
        var read := ReadLine(digest, records, log[i]);
        if read.Err? {
          HistoryStops(digest, log, i + 1);
          return Err(read.error);
        }
        records := records + [read.value];
        i := i + 1;
      }
      assert log[..i] == log;
      return Ok(records);
    }

    method ReadCurrent() returns (out: Outcome<Option<string>>)
      ensures out == Current(digest, View())
    {
      var text := ReadPointer(pointer);
      var history := ReadHistory();
      if history.Err? {
        return Err(history.error);
      }
      if history.value == [] {
        return if text.Some? then Err(PointerWithoutHistory) else Ok(None);
      }
      if text != Some(history.value[|history.value| - 1].version) {
        return Err(PointerMismatch);
      }
      return Ok(text);
    }

    method ActivateRecord(r: ChampionRecord, decision: Option<PromotionDecision>,
        crash: Crash) returns (error: Option<ChampionError>)
      modifies this
      ensures (View(), error) == Activate(digest, old(View()), r, decision, crash)
    {
      if r.status != "PROMOTED" {
        return Some(NotPromoted);
      }
      if |r.reviewFingerprint| != 64 {
        return Some(BadReviewFingerprint);
      }
      if !r.activatedAt.aware {
        return Some(BadTimestamp);
      }
      if decision.None? {
        return Some(DecisionMissing);
      }
      if !decision.value.promoted {
        return Some(DecisionNotPromoted);
      }
      if decision.value.challenger != r.version {
        return Some(ChallengerMismatch);
      }
      if decision.value.fingerprint != r.reviewFingerprint {
        return Some(DecisionMismatch);
      }
      var prior := ReadHistory();
      if prior.Err? {
        return Some(prior.error);
      }
      var current := ReadCurrent();
      if current.Err? {
        return Some(current.error);
      }
      if prior.value != [] {
        var champion := prior.value[|prior.value| - 1].version;
        if current.value != Some(champion) {
          return Some(UncheckedPointer);
        }
        if r.parent.None? {
          return Some(ParentRequired);
        }
        if r.parent != Some(champion) {
          return Some(NotSuccessor);
        }
      } else if current.value.Some? {
        return Some(UncheckedPointer);
      }
      if Some(r.version) == current.value {
        return Some(AlreadyCurrent);
      }
      if crash.NothingWritten? {
        return Some(Interrupted);
      }
      if crash.TornLine? {
        log := log + [Torn];
        return Some(Interrupted);
      }
      log := log + [Entry(r, digest(r))];
      if crash.BetweenWrites? {
        return Some(Interrupted);
      }
      pointer := Some(PointerText(r, crash));
      return if crash.Completes? then None else Some(Interrupted);
    }
  }

  /** A line that `history` rejects hides every line after it. */
  lemma {:induction false} HistoryStops(digest: Digest, log: seq<Line>, k: nat)
    requires k <= |log| && History(digest, log[..k]).Err?
    ensures History(digest, log) == History(digest, log[..k])
    decreases |log|
  {
    if k == |log| {
      assert log[..k] == log;
    } else {
      var n := |log| - 1;
      assert log[..n][..k] == log[..k];
      HistoryStops(digest, log[..n], k);
    }
  }
}
