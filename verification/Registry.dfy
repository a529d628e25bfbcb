/** The model registry: immutable versioned records, an append-only history per
    version, and approval only through explicit evidence. A step of the
    registry is a function on values here; the class at the end is proved to
    take exactly these steps. */
module Registry {
  import opened Common
  import opened Metadata

  datatype Status = ResearchOnly | Candidate | Approved | Retired

  /** The provenance texts that every record must carry. */
  datatype Provenance = Provenance(
    modelVersion: string, modelFamily: string, featureVersion: string, datasetVersion: string, codeVersion: string,
    trainingStart: string, trainingEnd: string, validationStart: string, validationEnd: string,
    testStart: string, testEnd: string, targetVersion: string)

  /** Optional artifact identities; an empty text means absent. */
  datatype Artifact = Artifact(
    uri: string, fingerprint: string, strategyVersion: string, lineageId: string,
    evaluationFingerprint: string, candidateFingerprint: string)

  /** The approval fields of a record. */
  datatype Evidence = Evidence(reference: string, fingerprint: string, evaluator: string, timestamp: string)

  datatype Record = Record(
    provenance: Provenance, artifact: Artifact, hyperparameters: Value, metrics: map<string, real>,
    status: Status, evidence: Evidence, retirementReason: string)

  /** `ModelApproval`. */
  datatype Approval = Approval(modelFingerprint: string, reference: string, evaluator: string, approvedAt: string)

  /** What a fingerprint is taken of: a record's dictionary form or an approval. */
  datatype Payload = OfRecord(document: Record) | OfApproval(approval: Approval)

  /** SHA-256 of the JSON text, and the `sorted` of the canonical form. */
  datatype Hashing = Hashing(digest: Payload -> string, sort: Sorter)

  ghost predicate HashingOk(h: Hashing) {
    SorterOk(h.sort) && forall p :: IsSha256(h.digest(p))
  }

  function LowerChar(c: char): char {
    if 'A' <= c <= 'Z' then (c as int + 32) as char else c
  }

  predicate IsHex(c: char) {
    '0' <= LowerChar(c) <= '9' || 'a' <= LowerChar(c) <= 'f'
  }

  lemma HexDigits(c: char)
    ensures IsHex(c) <==> c in "0123456789abcdefABCDEF"
  {
  }

  predicate IsSha256(text: string) {
    |Strip(text)| == 64 && forall i :: 0 <= i < 64 ==> IsHex(Strip(text)[i])
  }

  predicate OptionalSha256(text: string) {
    text == "" || IsSha256(text)
  }

  predicate ProvenanceOk(p: Provenance) {
    && !Blank(p.modelVersion) && !Blank(p.modelFamily) && !Blank(p.featureVersion) && !Blank(p.datasetVersion)
    && !Blank(p.codeVersion) && !Blank(p.trainingStart) && !Blank(p.trainingEnd) && !Blank(p.validationStart)
    && !Blank(p.validationEnd) && !Blank(p.testStart) && !Blank(p.testEnd) && !Blank(p.targetVersion)
  }

  predicate ArtifactOk(a: Artifact) {
    && (a.uri == "" || !Blank(a.uri)) && OptionalSha256(a.fingerprint) && OptionalSha256(a.lineageId)
    && OptionalSha256(a.evaluationFingerprint) && OptionalSha256(a.candidateFingerprint)
  }

  predicate ReadyForApproval(a: Artifact) {
    a.fingerprint != "" && a.lineageId != "" && a.evaluationFingerprint != ""
  }

  /** The checks of `ModelRegistryRecord.__post_init__`. */
  predicate RecordOk(r: Record) {
    && ProvenanceOk(r.provenance) && ArtifactOk(r.artifact) && r.hyperparameters.Dict?
    && OptionalSha256(r.evidence.fingerprint)
    && (r.status.Retired? ==> !Blank(r.retirementReason))
    && (r.status.Approved? ==>
          && ReadyForApproval(r.artifact) && r.evidence.fingerprint != ""
          && !Blank(r.evidence.reference) && !Blank(r.evidence.evaluator) && !Blank(r.evidence.timestamp))
  }

  /** The checks of `ModelApproval.__post_init__`. */
  predicate ApprovalOk(a: Approval) {
    IsSha256(a.modelFingerprint) && !Blank(a.reference) && !Blank(a.evaluator) && !Blank(a.approvedAt)
  }

  datatype RegistryError =
    | InvalidRecord | KeyMismatch | DirectApproval | DifferentMetadata | UnknownVersion | UnsortableMetadata
    | NotACandidate | MissingArtifact | EvidenceMismatch | MissingReason

  type Outcome<T> = Result<T, RegistryError>

  /** `to_dict`: the record with its metadata in canonical form. */
  function Document(h: Hashing, r: Record): (d: Outcome<Record>)
    ensures d.Ok? ==> d.value == r.(hyperparameters := d.value.hyperparameters)
    ensures d.Ok? && r.hyperparameters.Dict? ==> d.value.hyperparameters.Dict?
  {
    match Canonical(h.sort, r.hyperparameters)
    case None => Err(UnsortableMetadata)
    case Some(plain) => Ok(r.(hyperparameters := plain))
  }

  function Fingerprint(h: Hashing, r: Record): Outcome<string> {
    match Document(h, r)
    case Err(e) => Err(e)
    case Ok(document) => Ok(h.digest(OfRecord(document)))
  }

  /** The record constructor: checks the fields and freezes the metadata. */
  function Construct(fields: Record): Outcome<Record> {
    if RecordOk(fields) then Ok(fields.(hyperparameters := Freeze(fields.hyperparameters))) else Err(InvalidRecord)
  }

  /** Some constructor call returned this record. */
  ghost predicate Constructed(r: Record) {
    RecordOk(r) && Freeze(r.hyperparameters) == r.hyperparameters
  }

  datatype RegistryState = RegistryState(records: map<string, Record>, history: map<string, seq<Record>>)

  const EMPTY: RegistryState := RegistryState(map[], map[])

  function HistoryOf(s: RegistryState, version: string): seq<Record> {
    if version in s.history then s.history[version] else []
  }

  /** The two writes that end every successful operation. */
  function Append(s: RegistryState, version: string, r: Record): RegistryState {
    RegistryState(s.records[version := r], s.history[version := HistoryOf(s, version) + [r]])
  }

  function Register(h: Hashing, s: RegistryState, r: Record): Outcome<(RegistryState, Record)> {
    if r.status.Approved? then Err(DirectApproval)
    else if r.provenance.modelVersion in s.records then
      var existing := s.records[r.provenance.modelVersion];
      match (Fingerprint(h, existing), Fingerprint(h, r))
      case (Err(e), _) => Err(e)
      case (_, Err(e)) => Err(e)
      case (Ok(a), Ok(b)) => if a != b then Err(DifferentMetadata) else Ok((s, existing))
    else Ok((Append(s, r.provenance.modelVersion, r), r))
  }

  function ApprovedFields(h: Hashing, document: Record, a: Approval): Record {
    document.(status := Approved, evidence := Evidence(a.reference, h.digest(OfApproval(a)), a.evaluator, a.approvedAt))
  }

  function Approve(h: Hashing, s: RegistryState, version: string, a: Approval): Outcome<(RegistryState, Record)> {
    if version !in s.records then Err(UnknownVersion)
    else
      var current := s.records[version];
      if !current.status.Candidate? then Err(NotACandidate)
      else if !ReadyForApproval(current.artifact) then Err(MissingArtifact)
      else
        match Document(h, current)
        case Err(e) => Err(e)
        case Ok(document) =>
          if a.modelFingerprint != h.digest(OfRecord(document)) then Err(EvidenceMismatch)
          else
            match Construct(ApprovedFields(h, document, a))
            case Err(e) => Err(e)
            case Ok(approved) => Ok((Append(s, version, approved), approved))
  }

  function Retire(h: Hashing, s: RegistryState, version: string, reason: string): Outcome<(RegistryState, Record)> {
    if version !in s.records then Err(UnknownVersion)
    else if Blank(reason) then Err(MissingReason)
    else
      match Document(h, s.records[version])
      case Err(e) => Err(e)
      case Ok(document) =>
        match Construct(document.(status := Retired, retirementReason := Strip(reason)))
        case Err(e) => Err(e)
        case Ok(retired) => Ok((Append(s, version, retired), retired))
  }

  // ------------------------------------------------------------ runs

  datatype Call =
    | Registering(record: Record)
    | Approving(version: string, approval: Approval)
    | Retiring(version: string, reason: string)

  /** Callers can only pass records and approvals that their constructors made. */
  ghost predicate CallOk(c: Call) {
    match c
    case Registering(r) => Constructed(r)
    case Approving(_, a) => ApprovalOk(a)
    case Retiring(_, _) => true
  }

  function Apply(h: Hashing, s: RegistryState, c: Call): Outcome<(RegistryState, Record)> {
    match c
    case Registering(r) => Register(h, s, r)
    case Approving(version, a) => Approve(h, s, version, a)
    case Retiring(version, reason) => Retire(h, s, version, reason)
  }

  /** A call that raises leaves the registry as it was. */
  function Step(h: Hashing, s: RegistryState, c: Call): RegistryState {
    match Apply(h, s, c)
    case Err(_) => s
    case Ok((after, _)) => after
  }

  function Run(h: Hashing, s: RegistryState, calls: seq<Call>): RegistryState {
    if calls == [] then s else Step(h, Run(h, s, calls[..|calls| - 1]), calls[|calls| - 1])
  }

  /** One initial record: the checks of `__init__` in their order. */
  function LoadOne(s: RegistryState, key: string, r: Record): Outcome<RegistryState> {
    if Blank(key) then Err(InvalidRecord)
    else if key != r.provenance.modelVersion then Err(KeyMismatch)
    else if r.status.Approved? then Err(DirectApproval)
    else Ok(RegistryState(s.records[key := r], s.history[key := [r]]))
  }

  /** `__init__` over the items of the given mapping. */
  function Load(items: seq<(string, Record)>): Outcome<RegistryState> {
    if items == [] then Ok(EMPTY)
    else
      match Load(items[..|items| - 1])
      case Err(e) => Err(e)
      case Ok(s) => LoadOne(s, items[|items| - 1].0, items[|items| - 1].1)
  }

  ghost predicate ItemsOk(items: seq<(string, Record)>) {
    forall i :: 0 <= i < |items| ==> Constructed(items[i].1)
  }

  // ------------------------------------------------------------ the invariant

  /** The entry `next` may follow the entry `previous` in a history: the status
      edge, evidence tied to the fingerprint of the entry just before it, and
      everything else carried over. */
  ghost predicate Follows(h: Hashing, previous: Record, next: Record) {
    Document(h, previous).Ok? && Document(h, next).Ok? &&
    var before, after := Document(h, previous).value, Document(h, next).value;
    match next.status
    case Approved =>
      && previous.status.Candidate? && ReadyForApproval(previous.artifact)
      && after == before.(status := Approved, evidence := next.evidence)
      && next.evidence.fingerprint == h.digest(OfApproval(
                                          Approval(h.digest(OfRecord(before)), next.evidence.reference,
                                                   next.evidence.evaluator, next.evidence.timestamp)))
    case Retired => after == before.(status := Retired, retirementReason := next.retirementReason)
    case _ => false
  }

  ghost predicate HistoryOk(h: Hashing, version: string, entries: seq<Record>) {
    && entries != [] && !entries[0].status.Approved?
    && (forall i :: 0 <= i < |entries| ==> Constructed(entries[i]) && entries[i].provenance.modelVersion == version)
    && forall i, j :: 0 <= i && j == i + 1 < |entries| ==> Follows(h, entries[i], entries[j])
  }

  /** What every reachable registry satisfies. */
  ghost predicate Consistent(h: Hashing, s: RegistryState) {
    && s.records.Keys == s.history.Keys
    && forall v :: v in s.records ==> HistoryOk(h, v, s.history[v]) && s.records[v] == s.history[v][|s.history[v]| - 1]
  }

  /** Histories only grow, and no version disappears. */
  ghost predicate Grows(before: RegistryState, after: RegistryState) {
    forall v :: v in before.history ==> v in after.history && before.history[v] <= after.history[v]
  }

  lemma HistoryExtends(h: Hashing, version: string, entries: seq<Record>, r: Record)
    requires Constructed(r) && r.provenance.modelVersion == version
    requires if entries == [] then !r.status.Approved?
             else HistoryOk(h, version, entries) && Follows(h, entries[|entries| - 1], r)
    ensures HistoryOk(h, version, entries + [r])
  {
    hide Constructed, Follows;
    var longer := entries + [r];
    forall i, j | 0 <= i && j == i + 1 < |longer| ensures Follows(h, longer[i], longer[j]) {
      if j < |entries| {
        assert Follows(h, entries[i], entries[j]);
      }
    }
  }

  lemma AppendGrows(s: RegistryState, version: string, r: Record)
    requires s.records.Keys == s.history.Keys
    ensures Grows(s, Append(s, version, r))
  {
  }

  lemma HistoriesAreNotEmpty(h: Hashing, s: RegistryState)
    requires Consistent(h, s)
    ensures forall v :: v in s.records ==> s.history[v] != []
  {
    hide Follows, Constructed;
  }

  /** Writing a good history and its last entry keeps the registry consistent. */
  lemma WriteKeepsConsistent(h: Hashing, s: RegistryState, version: string, entries: seq<Record>, r: Record)
    requires Consistent(h, s) && HistoryOk(h, version, entries) && entries != [] && entries[|entries| - 1] == r
    ensures Consistent(h, RegistryState(s.records[version := r], s.history[version := entries]))
  {
    hide HistoryOk;
  }

  lemma AppendKeepsConsistent(h: Hashing, s: RegistryState, version: string, r: Record)
    requires Consistent(h, s) && Constructed(r) && r.provenance.modelVersion == version
    requires if version in s.records then Follows(h, s.records[version], r) else !r.status.Approved?
    ensures Consistent(h, Append(s, version, r)) && Grows(s, Append(s, version, r))
  {
    hide Follows, Constructed, HistoryOk, Grows;
    AppendGrows(s, version, r);
    HistoriesAreNotEmpty(h, s);
    var before := HistoryOf(s, version);
    HistoryExtends(h, version, before, r);
    WriteKeepsConsistent(h, s, version, before + [r], r);
  }

  /** A copied record has the document it was copied from. */
  lemma {:induction false} CopyDocument(h: Hashing, fields: Record, original: Record)
    requires HashingOk(h) && Document(h, original).Ok? && RecordOk(fields)
    requires fields.hyperparameters == Document(h, original).value.hyperparameters
    ensures Construct(fields).Ok? && Constructed(Construct(fields).value)
    ensures Document(h, Construct(fields).value) == Ok(fields)
  {
    CopyKeepsTheCanonicalForm(h.sort, original.hyperparameters);
    FreezeIsNeutral(h.sort, fields.hyperparameters);
  }

  /** Evidence that passed its own checks always makes a valid record: once the
      guards of `approve` are passed, the record constructor cannot raise. */
  lemma {:induction false} ApproveNeverBuildsAnInvalidRecord(h: Hashing, s: RegistryState, version: string, a: Approval)
    requires HashingOk(h) && Consistent(h, s) && ApprovalOk(a)
    ensures Approve(h, s, version, a) != Err(InvalidRecord)
    ensures Approve(h, s, version, a).Ok? <==>
            && version in s.records && s.records[version].status.Candidate?
               && ReadyForApproval(s.records[version].artifact)
            && Fingerprint(h, s.records[version]) == Ok(a.modelFingerprint)
    ensures Approve(h, s, version, a).Ok? ==>
            var approved := Approve(h, s, version, a).value.1;
            Constructed(approved) && approved.status.Approved? && approved.provenance.modelVersion == version
              && Follows(h, s.records[version], approved)
  {
    hide Freeze, Canonical, Blank, IsSha256, HistoryOk, ProvenanceOk, ArtifactOk;
    if version in s.records && s.records[version].status.Candidate? && ReadyForApproval(s.records[version].artifact) {
      CurrentIsConstructed(h, s, version);
      var current := s.records[version];
      if Fingerprint(h, current) == Ok(a.modelFingerprint) {
        var fields := ApprovedFields(h, Document(h, current).value, a);
        ApprovedFieldsAreOk(h, current, Document(h, current).value, a);
        CopyDocument(h, fields, current);
      }
    }
  }

  lemma ApprovedFieldsAreOk(h: Hashing, r: Record, document: Record, a: Approval)
    requires HashingOk(h) && RecordOk(r) && ApprovalOk(a) && ReadyForApproval(r.artifact)
    requires Document(h, r) == Ok(document)
    ensures RecordOk(ApprovedFields(h, document, a))
  {
    assert !IsSha256("");
    assert IsSha256(h.digest(OfApproval(a)));
    hide IsSha256, Blank, ProvenanceOk, ArtifactOk;
  }

  lemma RetiredFieldsAreOk(r: Record, document: Record, reason: string)
    requires RecordOk(r) && !Blank(reason) && document.hyperparameters.Dict?
    requires document == r.(hyperparameters := document.hyperparameters)
    ensures RecordOk(document.(status := Retired, retirementReason := Strip(reason)))
  {
    hide IsSha256, ProvenanceOk, ArtifactOk;
    StripIdempotent(reason);
  }

  lemma CurrentIsConstructed(h: Hashing, s: RegistryState, version: string)
    requires Consistent(h, s) && version in s.records
    ensures Constructed(s.records[version]) && s.records[version].provenance.modelVersion == version
  {
    hide Constructed, Follows;
  }

  /** `retire` succeeds for any known version with a non-blank reason, unless
      its metadata cannot be sorted, and may be repeated. */
  lemma {:induction false} RetireNeverBuildsAnInvalidRecord(h: Hashing, s: RegistryState, version: string,
      reason: string)
    requires HashingOk(h) && Consistent(h, s)
    ensures Retire(h, s, version, reason) != Err(InvalidRecord)
    ensures Retire(h, s, version, reason).Ok? <==>
            version in s.records && !Blank(reason) && Document(h, s.records[version]).Ok?
    ensures Retire(h, s, version, reason).Ok? ==>
            var retired := Retire(h, s, version, reason).value.1;
            Constructed(retired) && retired.status.Retired? && retired.provenance.modelVersion == version
              && Follows(h, s.records[version], retired)
  {
    hide Freeze, Canonical, Blank, IsSha256;
    if version in s.records && !Blank(reason) && Document(h, s.records[version]).Ok? {
      CurrentIsConstructed(h, s, version);
      var current := s.records[version];
      var fields := Document(h, current).value.(status := Retired, retirementReason := Strip(reason));
      RetiredFieldsAreOk(current, Document(h, current).value, reason);
      CopyDocument(h, fields, current);
    }
  }

  lemma {:induction false} StepKeepsConsistent(h: Hashing, s: RegistryState, c: Call)
    requires HashingOk(h) && Consistent(h, s) && CallOk(c)
    ensures Consistent(h, Step(h, s, c)) && Grows(s, Step(h, s, c))
  {
    hide Freeze, Canonical, Blank, IsSha256, RecordOk, Document, Construct, HistoryOk, Follows, Fingerprint;
    match c
    case Registering(r) =>
      if !r.status.Approved? && r.provenance.modelVersion !in s.records {
        AppendKeepsConsistent(h, s, r.provenance.modelVersion, r);
      }
    case Approving(version, a) =>
      ApproveNeverBuildsAnInvalidRecord(h, s, version, a);
      if Approve(h, s, version, a).Ok? {
        AppendKeepsConsistent(h, s, version, Approve(h, s, version, a).value.1);
      }
    case Retiring(version, reason) =>
      RetireNeverBuildsAnInvalidRecord(h, s, version, reason);
      if Retire(h, s, version, reason).Ok? {
        AppendKeepsConsistent(h, s, version, Retire(h, s, version, reason).value.1);
      }
  }

  lemma LoadOneIsConsistent(h: Hashing, s: RegistryState, key: string, r: Record)
    requires Consistent(h, s) && Constructed(r) && LoadOne(s, key, r).Ok?
    ensures Consistent(h, LoadOne(s, key, r).value)
  {
    hide Follows, Constructed, Blank, Consistent;
    assert HistoryOk(h, key, [r]);
    WriteKeepsConsistent(h, s, key, [r], r);
  }

  lemma {:induction false} LoadIsConsistent(h: Hashing, items: seq<(string, Record)>)
    requires ItemsOk(items) && Load(items).Ok?
    ensures Consistent(h, Load(items).value)
  {
    hide LoadOne, Constructed;
    if items == [] {
      assert Consistent(h, EMPTY);
    } else {
      hide Consistent;
      var n := |items| - 1;
      LoadIsConsistent(h, items[..n]);
      LoadOneIsConsistent(h, Load(items[..n]).value, items[n].0, items[n].1);
    }
  }

  /** Every registry that any run of calls reaches is consistent, and the
      histories of an earlier point are prefixes of the later ones. */
  lemma {:induction false} EveryRunIsConsistent(h: Hashing, items: seq<(string, Record)>, calls: seq<Call>)
    requires HashingOk(h) && ItemsOk(items) && Load(items).Ok?
    requires forall i :: 0 <= i < |calls| ==> CallOk(calls[i])
    ensures Consistent(h, Run(h, Load(items).value, calls))
    ensures Grows(Load(items).value, Run(h, Load(items).value, calls))
  {
    if calls == [] {
      LoadIsConsistent(h, items);
    } else {
      EveryRunIsConsistent(h, items, calls[..|calls| - 1]);
      StepKeepsConsistent(h, Run(h, Load(items).value, calls[..|calls| - 1]), calls[|calls| - 1]);
    }
  }

  // ------------------------------------------------------------ the status grammar

  function Word(entries: seq<Record>): seq<Status> {
    seq(|entries|, i requires 0 <= i < |entries| => entries[i].status)
  }

  function RetiredTimes(n: nat): seq<Status> {
    seq(n, _ => Retired)
  }

  /** RESEARCH_ONLY, CANDIDATE, CANDIDATE APPROVED, or nothing. */
  predicate IsHead(head: seq<Status>) {
    head == [] || head == [ResearchOnly] || head == [Candidate] || head == [Candidate, Approved]
  }

  /** The status word of a history is such a head followed by any number of
      RETIRED. */
  lemma {:induction false} StatusGrammar(h: Hashing, version: string, entries: seq<Record>)
    returns (head: seq<Status>, retired: nat)
    requires HistoryOk(h, version, entries)
    ensures IsHead(head) && Word(entries) == head + RetiredTimes(retired)
  {
    hide Constructed, Document, ReadyForApproval;
    if |entries| == 1 {
      var only := entries[0].status;
      head, retired := if only.Retired? then [] else [only], if only.Retired? then 1 else 0;
      assert Word(entries) == head + RetiredTimes(retired);
    } else {
      var n := |entries| - 1;
      var before := entries[..n];
      assert forall i, j :: 0 <= i && j == i + 1 < |before| ==> before[i] == entries[i] && before[j] == entries[j];
      head, retired := StatusGrammar(h, version, before);
      assert Follows(h, entries[n - 1], entries[n]);
      assert Word(entries) == Word(before) + [entries[n].status];
      assert Word(before)[n - 1] == entries[n - 1].status;
      if entries[n].status.Approved? {
        assert retired == 0;
        assert head == [Candidate];
        head := [Candidate, Approved];
        assert Word(entries) == head + RetiredTimes(0);
      } else {
        assert RetiredTimes(retired + 1) == RetiredTimes(retired) + [Retired];
        retired := retired + 1;
      }
    }
  }

  /** In every reachable registry: the current record is the last entry of its
      history, the status word obeys the grammar, and the evidence of an
      approved entry names the fingerprint of the entry just before it. */
  lemma {:induction false} RegistryGrammar(h: Hashing, items: seq<(string, Record)>, calls: seq<Call>, version: string)
    returns (head: seq<Status>, retired: nat)
    requires HashingOk(h) && ItemsOk(items) && Load(items).Ok?
    requires forall i :: 0 <= i < |calls| ==> CallOk(calls[i])
    requires version in Run(h, Load(items).value, calls).records
    ensures var s := Run(h, Load(items).value, calls);
            && version in s.history && s.history[version] != []
            && s.records[version] == s.history[version][|s.history[version]| - 1]
            && IsHead(head) && Word(s.history[version]) == head + RetiredTimes(retired)
            && forall i :: 0 <= i < |s.history[version]| && s.history[version][i].status.Approved? ==>
                 i == 1 && Fingerprint(h, s.history[version][0]).Ok?
                 && var e := s.history[version][1].evidence;
                    e.fingerprint == h.digest(OfApproval(
                       Approval(Fingerprint(h, s.history[version][0]).value, e.reference, e.evaluator, e.timestamp)))
  {
    hide Constructed, Document, ReadyForApproval, Run, Load;
    EveryRunIsConsistent(h, items, calls);
    var entries := Run(h, Load(items).value, calls).history[version];
    head, retired := StatusGrammar(h, version, entries);
    forall i | 0 <= i < |entries| && entries[i].status.Approved? ensures i == 1 && Follows(h, entries[0], entries[1]) {
      assert Word(entries)[i] == Approved;
      assert (head + RetiredTimes(retired))[i] == Approved;
    }
  }

  /** Across a whole history only the approval and retirement fields change. */
  lemma {:induction false} IdentityIsCarriedOver(h: Hashing, version: string, entries: seq<Record>, i: nat)
    requires HistoryOk(h, version, entries) && 0 < i < |entries|
    ensures Document(h, entries[0]).Ok? && Document(h, entries[i]).Ok?
    ensures Document(h, entries[i]).value
            == Document(h, entries[0]).value.(status := entries[i].status, evidence := entries[i].evidence,
                                              retirementReason := entries[i].retirementReason)
  {
    var k := i - 1;
    assert Follows(h, entries[k], entries[i]);
    if k > 0 {
      IdentityIsCarriedOver(h, version, entries, k);
    }
  }

  predicate OnlyEntry(s: RegistryState, version: string, r: Record) {
    && version in s.records && s.records[version] == r
    && version in s.history && s.history[version] == [r]
  }

  lemma StuckHistory(h: Hashing, version: string, entries: seq<Record>)
    requires HistoryOk(h, version, entries) && Document(h, entries[|entries| - 1]).Err?
    ensures |entries| == 1
  {
    hide Constructed, Document;
    var last, k := |entries| - 1, |entries| - 2;
    assert last > 0 ==> Follows(h, entries[k], entries[last]);
  }

  /** A version whose metadata holds a set that cannot be sorted can be
      registered, but never registered again, approved or retired. */
  lemma UnsortableMetadataIsStuck(h: Hashing, s: RegistryState, version: string, c: Call)
    requires HashingOk(h) && Consistent(h, s) && CallOk(c)
    requires version in s.records && Document(h, s.records[version]).Err?
    ensures OnlyEntry(Step(h, s, c), version, s.records[version])
  {
    hide Constructed, Freeze, Canonical, Blank, RecordOk, Construct, IsSha256, ProvenanceOk, ArtifactOk,
      ReadyForApproval;
    StuckHistory(h, version, s.history[version]);
    hide HistoryOk, Document;
    var entries := s.history[version];
    assert entries == [s.records[version]];
  }

  // ------------------------------------------------------------ between two points of a run

  lemma {:induction false} RunFromConsistent(h: Hashing, s: RegistryState, calls: seq<Call>)
    requires HashingOk(h) && Consistent(h, s) && forall i :: 0 <= i < |calls| ==> CallOk(calls[i])
    ensures Consistent(h, Run(h, s, calls)) && Grows(s, Run(h, s, calls))
  {
    hide Consistent, Step, CallOk;
    if calls == [] {
      GrowsItself(h, s);
    } else {
      var n := |calls| - 1;
      RunFromConsistent(h, s, calls[..n]);
      StepKeepsConsistent(h, Run(h, s, calls[..n]), calls[n]);
    }
  }

  lemma GrowsItself(h: Hashing, s: RegistryState)
    ensures Grows(s, s)
  {
  }

  lemma {:induction false} RunInTwoParts(h: Hashing, s: RegistryState, calls: seq<Call>, k: nat)
    requires k <= |calls|
    ensures Run(h, s, calls) == Run(h, Run(h, s, calls[..k]), calls[k..])
    decreases |calls|
  {
    hide Step;
    if k == |calls| {
      assert calls[..k] == calls && calls[k..] == [];
    } else {
      var n := |calls| - 1;
      RunInTwoParts(h, s, calls[..n], k);
      assert calls[..n][..k] == calls[..k] && calls[..n][k..] == calls[k..][..n - k] && calls[k..][n - k] == calls[n];
    }
  }

  /** Between any two points of a run the histories only grow. */
  lemma HistoriesOnlyGrow(h: Hashing, items: seq<(string, Record)>, calls: seq<Call>, k: nat)
    requires HashingOk(h) && ItemsOk(items) && Load(items).Ok? && k <= |calls|
    requires forall i :: 0 <= i < |calls| ==> CallOk(calls[i])
    ensures Grows(Run(h, Load(items).value, calls[..k]), Run(h, Load(items).value, calls))
  {
    hide Load, Run, CallOk, Grows, Consistent, Constructed;
    var s := Load(items).value;
    LoadIsConsistent(h, items);
    RunFromConsistent(h, s, calls[..k]);
    RunFromConsistent(h, Run(h, s, calls[..k]), calls[k..]);
    RunInTwoParts(h, s, calls, k);
  }

  /** Once registered, a version whose metadata cannot be sorted is the same for
      the rest of every run. */
  lemma {:induction false} UnsortableMetadataIsStuckForever(h: Hashing, s: RegistryState, version: string,
      calls: seq<Call>)
    requires HashingOk(h) && Consistent(h, s) && forall i :: 0 <= i < |calls| ==> CallOk(calls[i])
    requires version in s.records && Document(h, s.records[version]).Err?
    ensures OnlyEntry(Run(h, s, calls), version, s.records[version])
  {
    hide Consistent, Step, CallOk, Document;
    if calls == [] {
      OnlyEntryHolds(h, s, version);
    } else {
      var n := |calls| - 1;
      UnsortableMetadataIsStuckForever(h, s, version, calls[..n]);
      RunFromConsistent(h, s, calls[..n]);
      UnsortableMetadataIsStuck(h, Run(h, s, calls[..n]), version, calls[n]);
    }
  }

  lemma OnlyEntryHolds(h: Hashing, s: RegistryState, version: string)
    requires Consistent(h, s) && version in s.records && Document(h, s.records[version]).Err?
    ensures OnlyEntry(s, version, s.records[version])
  {
    hide HistoryOk, Document;
    StuckHistory(h, version, s.history[version]);
  }

  /** A number and a text, which `sorted` cannot compare. */
  const MIXED: seq<Value> := [Leaf("1"), Leaf("a")]

  /** A candidate that is ready for approval, with such a set in its metadata. */
  function Mixed(sha: string): Record {
    Record(Provenance("m", "m", "m", "m", "m", "m", "m", "m", "m", "m", "m", "m"), Artifact("", sha, "", sha, sha, ""),
           Dict(map["k" := SetOf(MIXED)]), map[], Candidate, Evidence("", "", "", ""), "")
  }

  lemma MixedIsUnsortable(h: Hashing, sha: string)
    requires h.sort(MIXED).None?
    ensures Document(h, Mixed(sha)) == Err(UnsortableMetadata)
  {
    var inner := SetOf(MIXED);
    assert Canonical(h.sort, inner).None? by {
      assert CanonicalAll(h.sort, MIXED).value == MIXED;
    }
    assert map["k" := inner]["k"] == inner;
  }

  lemma MixedIsConstructed(sha: string)
    requires IsSha256(sha)
    ensures Constructed(Mixed(sha)) && ReadyForApproval(Mixed(sha).artifact)
  {
    StripOfTight("m");
    assert !IsSha256("");
    hide Strip, IsSha256;
    var inner := SetOf(MIXED);
    assert FreezeAll(inner.items) == inner.items;
    assert Freeze(Mixed(sha).hyperparameters).entries == map["k" := inner];
  }

  /** With any `sorted` that refuses the two, such a record passes its
      constructor and is registered; approving it, on any evidence, and retiring
      it, for any reason, raise from then on. */
  lemma UnsortableMetadataCanBeRegistered(h: Hashing, sha: string, a: Approval, reason: string)
    requires h.sort(MIXED).None? && IsSha256(sha) && !Blank(reason)
    ensures Constructed(Mixed(sha)) && Register(h, EMPTY, Mixed(sha)).Ok?
    ensures var s := Register(h, EMPTY, Mixed(sha)).value.0;
            && Approve(h, s, "m", a) == Err(UnsortableMetadata)
            && Retire(h, s, "m", reason) == Err(UnsortableMetadata)
  {
    MixedIsConstructed(sha);
    MixedIsUnsortable(h, sha);
    hide Constructed, Document, IsSha256, Blank, ReadyForApproval;
  }

  // ------------------------------------------------------------ what each operation does

  /** One version changed, to this record; every other version and its history
      are as they were. */
  ghost predicate OnlyAppended(s: RegistryState, after: RegistryState, version: string, r: Record) {
    && version in after.records && after.records[version] == r && version in after.history
    && after.history[version] == (if version in s.history then s.history[version] else []) + [r]
    && after.records.Keys == s.records.Keys + {version} && after.history.Keys == s.history.Keys + {version}
    && (forall v :: v in s.records && v != version ==> after.records[v] == s.records[v])
    && forall v :: v in s.history && v != version ==> after.history[v] == s.history[v]
  }

  /** Registration takes any record that is not APPROVED under a new version, and
      under a known one exactly what has the same fingerprint, which changes
      nothing and returns the record that is there. */
  lemma RegistersExactlyWhen(h: Hashing, s: RegistryState, r: Record)
    ensures var version := r.provenance.modelVersion;
            && (Register(h, s, r).Ok? <==>
                  && r.status != Approved
                  && (version in s.records ==>
                        && Document(h, s.records[version]).Ok? && Document(h, r).Ok?
                        && h.digest(OfRecord(Document(h, s.records[version]).value))
                           == h.digest(OfRecord(Document(h, r).value))))
            && (Register(h, s, r).Ok? ==>
                  var (after, returned) := Register(h, s, r).value;
                  if version in s.records then after == s && returned == s.records[version]
                  else returned == r && OnlyAppended(s, after, version, r))
  {
    hide Document;
  }

  /** Approval takes exactly a known CANDIDATE with an artifact, a lineage and an
      evaluation, on evidence that names its fingerprint, and records that
      evidence beside everything the candidate had. */
  lemma ApprovesExactlyWhen(h: Hashing, s: RegistryState, version: string, a: Approval)
    requires HashingOk(h) && Consistent(h, s) && ApprovalOk(a)
    ensures Approve(h, s, version, a).Ok? <==>
            && version in s.records
            && var c := s.records[version];
               && c.status == Candidate && c.artifact.fingerprint != "" && c.artifact.lineageId != ""
               && c.artifact.evaluationFingerprint != ""
               && Document(h, c).Ok? && a.modelFingerprint == h.digest(OfRecord(Document(h, c).value))
    ensures Approve(h, s, version, a).Ok? ==>
              var (after, approved) := Approve(h, s, version, a).value;
              var c := s.records[version];
              && OnlyAppended(s, after, version, approved) && approved.status == Approved
              && approved.evidence == Evidence(a.reference, h.digest(OfApproval(a)), a.evaluator, a.approvedAt)
              && approved.provenance == c.provenance && approved.artifact == c.artifact && approved.metrics == c.metrics
              && approved.retirementReason == c.retirementReason
              && Document(h, approved).Ok?
                 && Document(h, approved).value.hyperparameters == Document(h, c).value.hyperparameters
  {
    hide Consistent, RecordOk, Document, HashingOk, ApprovalOk, Follows, Constructed, Approve, OnlyAppended, Append;
    ApproveNeverBuildsAnInvalidRecord(h, s, version, a);
    if Approve(h, s, version, a).Ok? {
      ApproveBuilds(h, s, version, a);
      AppendOnly(s, version, Approve(h, s, version, a).value.1);
      ApprovedDocument(h, s, version, a);
    }
  }

  lemma ApproveBuilds(h: Hashing, s: RegistryState, version: string, a: Approval)
    requires Approve(h, s, version, a).Ok?
    ensures version in s.records && Document(h, s.records[version]).Ok?
    ensures var (after, approved) := Approve(h, s, version, a).value;
            && after == Append(s, version, approved)
            && approved == s.records[version].(
                             hyperparameters := approved.hyperparameters, status := Approved,
                             evidence := Evidence(a.reference, h.digest(OfApproval(a)), a.evaluator, a.approvedAt))
  {
    hide RecordOk, Canonical, Append, ReadyForApproval;
  }

  lemma RetireBuilds(h: Hashing, s: RegistryState, version: string, reason: string)
    requires Retire(h, s, version, reason).Ok?
    ensures version in s.records && Document(h, s.records[version]).Ok?
    ensures var (after, retired) := Retire(h, s, version, reason).value;
            && after == Append(s, version, retired)
            && retired == s.records[version].(hyperparameters := retired.hyperparameters, status := Retired,
                                              retirementReason := Strip(reason))
  {
    hide RecordOk, Canonical, Append, Strip;
  }

  lemma AppendOnly(s: RegistryState, version: string, r: Record)
    ensures OnlyAppended(s, Append(s, version, r), version, r)
  {
  }

  lemma ApprovedDocument(h: Hashing, s: RegistryState, version: string, a: Approval)
    requires HashingOk(h) && Consistent(h, s) && ApprovalOk(a) && Approve(h, s, version, a).Ok?
    ensures var approved := Approve(h, s, version, a).value.1;
            && Document(h, s.records[version]).Ok? && Document(h, approved).Ok?
            && Document(h, approved).value.hyperparameters == Document(h, s.records[version]).value.hyperparameters
  {
    ApproveNeverBuildsAnInvalidRecord(h, s, version, a);
    hide Approve, Consistent, Document;
  }

  /** Retirement takes exactly a known version with a reason, and records the
      reason without its surrounding blanks. */
  lemma RetiresExactlyWhen(h: Hashing, s: RegistryState, version: string, reason: string)
    requires HashingOk(h) && Consistent(h, s)
    ensures Retire(h, s, version, reason).Ok? <==>
            version in s.records && Strip(reason) != "" && Document(h, s.records[version]).Ok?
    ensures Retire(h, s, version, reason).Ok? ==>
              var (after, retired) := Retire(h, s, version, reason).value;
              var c := s.records[version];
              && OnlyAppended(s, after, version, retired) && retired.status == Retired
              && retired.retirementReason == Strip(reason) && retired.evidence == c.evidence
              && retired.provenance == c.provenance && retired.artifact == c.artifact && retired.metrics == c.metrics
  {
    hide Consistent, RecordOk, Document, HashingOk, Follows, Strip, Constructed, Retire, OnlyAppended, Append;
    RetireNeverBuildsAnInvalidRecord(h, s, version, reason);
    if Retire(h, s, version, reason).Ok? {
      RetireBuilds(h, s, version, reason);
      AppendOnly(s, version, Retire(h, s, version, reason).value.1);
    }
  }

  /** Loading takes exactly records under their own, non-blank version, none of
      them APPROVED; each then has itself as its history. */
  lemma {:induction false} LoadsExactlyWhen(items: seq<(string, Record)>)
    ensures Load(items).Ok? <==>
            forall i :: 0 <= i < |items| ==>
                          && Strip(items[i].0) != "" && items[i].0 == items[i].1.provenance.modelVersion
                          && items[i].1.status != Approved
    ensures Load(items).Ok? ==>
              forall v :: (v in Load(items).value.records <==> exists i :: 0 <= i < |items| && items[i].0 == v)
                          && (v in Load(items).value.records ==>
                                v in Load(items).value.history
                                  && Load(items).value.history[v] == [Load(items).value.records[v]])
  {
    hide Strip;
    if items != [] {
      var n := |items| - 1;
      LoadsExactlyWhen(items[..n]);
      assert forall i :: 0 <= i < n ==> items[..n][i] == items[i];
      if Load(items).Ok? {
        forall v ensures (v in Load(items).value.records <==> exists i :: 0 <= i < |items| && items[i].0 == v) {
          if v in Load(items[..n]).value.records {
            var i :| 0 <= i < n && items[..n][i].0 == v;
            assert items[i].0 == v;
          }
          assert items[n].0 in Load(items).value.records;
        }
      }
    }
  }

  /** Every APPROVED entry of a history names its artifact, its lineage, its
      evaluation and a full piece of evidence, and every RETIRED one a reason. */
  lemma EntriesAreComplete(h: Hashing, version: string, entries: seq<Record>, i: nat)
    requires HistoryOk(h, version, entries) && i < |entries|
    ensures entries[i].status == Approved ==>
              && entries[i].artifact.fingerprint != "" && entries[i].artifact.lineageId != ""
              && entries[i].artifact.evaluationFingerprint != "" && Strip(entries[i].evidence.reference) != ""
              && entries[i].evidence.fingerprint != "" && Strip(entries[i].evidence.evaluator) != ""
              && Strip(entries[i].evidence.timestamp) != ""
    ensures entries[i].status == Retired ==> Strip(entries[i].retirementReason) != ""
  {
    assert Constructed(entries[i]);
    hide Follows, Strip, IsSha256, ProvenanceOk;
  }

  // ------------------------------------------------------------ the object

  class ModelRegistry {
    const h: Hashing
    var records: map<string, Record>
    var histories: map<string, seq<Record>>

    ghost function View(): RegistryState
      reads this
    {
      RegistryState(records, histories)
    }

    constructor (h: Hashing)
      ensures this.h == h && View() == EMPTY
    {
      this.h, records, histories := h, map[], map[];
    }

    method LoadRecords(items: seq<(string, Record)>) returns (error: Option<RegistryError>)
      requires View() == EMPTY
      modifies this
      ensures error.None? ==> Load(items) == Ok(View())
      ensures error.Some? ==> Load(items) == Err(error.value)
    {
      var i := 0;
      while i < |items|
        invariant 0 <= i <= |items| && Load(items[..i]) == Ok(View())
      {
        assert items[..i + 1][..i] == items[..i];
        var key, r := items[i].0, items[i].1;
        error := None;
        if Blank(key) {
          error := Some(InvalidRecord);
        } else if key != r.provenance.modelVersion {
          error := Some(KeyMismatch);
        } else if r.status.Approved? {
          error := Some(DirectApproval);
        }
        if error.Some? {
          LoadStops(items, i + 1);
          return;
        }
        records, histories := records[key := r], histories[key := [r]];
        i := i + 1;
      }
      assert items[..i] == items;
      return None;
    }

    method RegisterRecord(r: Record) returns (out: Outcome<Record>)
      modifies this
      ensures Done(Register(h, old(View()), r), old(View()), out)
    {
      if r.status.Approved? {
        return Err(DirectApproval);
      }
      var version := r.provenance.modelVersion;
      if version in records {
        var existing := records[version];
        var a, b := Fingerprint(h, existing), Fingerprint(h, r);
        if a.Err? {
          return Err(a.error);
        }
        if b.Err? {
          return Err(b.error);
        }
        if a.value != b.value {
          return Err(DifferentMetadata);
        }
        return Ok(existing);
      }
      Write(version, r);
      return Ok(r);
    }

    method ApproveVersion(version: string, a: Approval) returns (out: Outcome<Record>)
      modifies this
      ensures Done(Approve(h, old(View()), version, a), old(View()), out)
    {
      if version !in records {
        return Err(UnknownVersion);
      }
      var current := records[version];
      if !current.status.Candidate? {
        return Err(NotACandidate);
      }
      if !ReadyForApproval(current.artifact) {
        return Err(MissingArtifact);
      }
      var document := Document(h, current);
      if document.Err? {
        return Err(document.error);
      }
      if a.modelFingerprint != h.digest(OfRecord(document.value)) {
        return Err(EvidenceMismatch);
      }
      var approved := Construct(ApprovedFields(h, document.value, a));
      if approved.Err? {
        return approved;
      }
      Write(version, approved.value);
      return approved;
    }

    method RetireVersion(version: string, reason: string) returns (out: Outcome<Record>)
      modifies this
      ensures Done(Retire(h, old(View()), version, reason), old(View()), out)
    {
      if version !in records {
        return Err(UnknownVersion);
      }
      if Blank(reason) {
        return Err(MissingReason);
      }
      var document := Document(h, records[version]);
      if document.Err? {
        return Err(document.error);
      }
      var retired := Construct(document.value.(status := Retired, retirementReason := Strip(reason)));
      if retired.Err? {
        return retired;
      }
      Write(version, retired.value);
      return retired;
    }

    method Write(version: string, r: Record)
      modifies this
      ensures View() == Append(old(View()), version, r)
    {
      var earlier := [];
      if version in histories {
        earlier := histories[version];
      }
      records, histories := records[version := r], histories[version := earlier + [r]];
    }

    /** What a call left behind, against the model's answer. */
    ghost predicate Done(expected: Outcome<(RegistryState, Record)>, before: RegistryState, out: Outcome<Record>)
      reads this
    {
      match out
      case Ok(r) => expected == Ok((View(), r))
      case Err(e) => expected == Err(e) && View() == before
    }
  }

  /** An invalid initial record ends the loading. */
  lemma {:induction false} LoadStops(items: seq<(string, Record)>, k: nat)
    requires k <= |items| && Load(items[..k]).Err?
    ensures Load(items) == Load(items[..k])
    decreases |items| - k
  {
    if k == |items| {
      assert items[..k] == items;
    } else {
      assert items[..k + 1][..k] == items[..k];
      LoadStops(items, k + 1);
    }
  }
}
