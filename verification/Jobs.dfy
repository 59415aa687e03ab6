/** The worker-job wire contract: five job shapes, encoded field for field and decoded strictly. */
module Jobs {
  import opened Text
  import opened Wire
  import opened Identifiers

  const WORKER_JOB_SCHEMA := "worker-job/v1"
  const MAX_MESSAGE_LOCATORS := 500

  datatype WorkerJobKind = MONITOR | INVESTIGATE | PROPOSE_ACTION | EXTRACT_COMMITMENT | SEND_ACTION

  function KindText(k: WorkerJobKind): string {
    match k
    case MONITOR => "MONITOR"
    case INVESTIGATE => "INVESTIGATE"
    case PROPOSE_ACTION => "PROPOSE_ACTION"
    case EXTRACT_COMMITMENT => "EXTRACT_COMMITMENT"
    case SEND_ACTION => "SEND_ACTION"
  }

  lemma KindTextsDiffer()
    ensures forall i, j :: KindText(i) == KindText(j) ==> i == j
  {
    // told apart by length, but for two of eleven letters
    assert KindText(INVESTIGATE)[0] == 'I' && KindText(SEND_ACTION)[0] == 'S';
    forall i, j | KindText(i) == KindText(j) ensures i == j {
      assert |KindText(i)| == |KindText(j)| && KindText(i)[0] == KindText(j)[0];
    }
  }

  function KindOfText(s: string): (k: Option<WorkerJobKind>)
    ensures forall j :: k == Some(j) <==> s == KindText(j)
  {
    assert forall i, j :: KindText(i) == KindText(j) ==> i == j by { KindTextsDiffer(); }
    if s == KindText(MONITOR) then Some(MONITOR)
    else if s == KindText(INVESTIGATE) then Some(INVESTIGATE)
    else if s == KindText(PROPOSE_ACTION) then Some(PROPOSE_ACTION)
    else if s == KindText(EXTRACT_COMMITMENT) then Some(EXTRACT_COMMITMENT)
    else if s == KindText(SEND_ACTION) then Some(SEND_ACTION)
    else None
  }

  datatype MessageFeedEntry = MessageFeedEntry(messageId: Uuid, sentAt: Instant)

  /** What every job carries. */
  datatype Binding = Binding(
    operationId: Uuid, ns: Namespace, communityId: Uuid, correlationId: Uuid, actorIdHash: Digest, requestHash: Digest)

  datatype OperationJob =
    | MonitorJob(binding: Binding, invocationId: Uuid, locators: seq<MessageFeedEntry>)
    | InvestigationJob(binding: Binding, caseId: Uuid, invocationId: Uuid,
                       expectedVersion: int, reason: string, idempotencyKey: string)
    | ProposeActionJob(binding: Binding, caseId: Uuid, invocationId: Uuid,
                       expectedVersion: int, viewId: Uuid, viewHash: Digest, idempotencyKey: string)
    | ExtractCommitmentJob(binding: Binding, caseId: Uuid, actionId: Uuid, evidenceId: Uuid, invocationId: Uuid,
                           evidenceSha256: Digest)
    | SendActionJob(binding: Binding, caseId: Uuid, actionId: Uuid, executionId: Uuid, approvalId: Uuid,
                    expectedVersion: int, idempotencyKey: string)

  function KindOf(j: OperationJob): WorkerJobKind {
    match j
    case MonitorJob(_, _, _) => MONITOR
    case InvestigationJob(_, _, _, _, _, _) => INVESTIGATE
    case ProposeActionJob(_, _, _, _, _, _, _) => PROPOSE_ACTION
    case ExtractCommitmentJob(_, _, _, _, _, _) => EXTRACT_COMMITMENT
    case SendActionJob(_, _, _, _, _, _, _) => SEND_ACTION
  }

  predicate Distinct(ls: seq<MessageFeedEntry>) {
    forall i, j :: 0 <= i < j < |ls| ==> ls[i].messageId != ls[j].messageId
  }

  /** What the job constructors insist on. */
  predicate Constructible(j: OperationJob) {
    match j
    case MonitorJob(_, _, locators) => locators != [] && Distinct(locators)
    case InvestigationJob(_, _, _, version, reason, _) => 1 <= version && reason != ""
    case ProposeActionJob(_, _, _, version, _, _, key) => 1 <= version && key != ""
    case ExtractCommitmentJob(_, _, _, _, _, _) => true
    case SendActionJob(_, _, _, _, _, version, key) => 1 <= version && key != ""
  }

  /** What the decoder insists on and two of the constructors do not. */
  predicate WithinWire(j: OperationJob) {
    && (j.MonitorJob? ==> |j.locators| <= MAX_MESSAGE_LOCATORS)
    && (j.InvestigationJob? ==> j.idempotencyKey != "")
  }

  /** Whether a job can be read back: what its constructor insists on, and the bounds of the wire. */
  predicate Survives(j: OperationJob) {
    match j
    case MonitorJob(_, _, ls) =>
      1 <= |ls| <= 500 && forall i, k :: 0 <= i < k < |ls| ==> ls[i].messageId != ls[k].messageId
    case InvestigationJob(_, _, _, version, reason, key) => 1 <= version && reason != "" && key != ""
    case ProposeActionJob(_, _, _, version, _, _, key) => 1 <= version && key != ""
    case ExtractCommitmentJob(_, _, _, _, _, _) => true
    case SendActionJob(_, _, _, _, _, version, key) => 1 <= version && key != ""
  }

  lemma SurvivesExactly(j: OperationJob)
    ensures Survives(j) <==> Constructible(j) && WithinWire(j)
  {
  }

  // ---------- Encoding ----------

  function Id(u: Uuid): (v: Json)
    ensures v.Str?
  {
    Str(PrintUuid(u))
  }

  function EncodeLocator(e: MessageFeedEntry): Json { Obj(map[MessageId := Id(e.messageId), SentAt := Str(FormatUtc(e.sentAt))]) }

  function EncodeLocators(ls: seq<MessageFeedEntry>): Json {
    List(seq(|ls|, i requires 0 <= i < |ls| => EncodeLocator(ls[i])))
  }

  function EncodeBinding(b: Binding): map<Key, Json> {
    map[OperationId := Id(b.operationId), NamespaceKey := Str(b.ns), CommunityId := Id(b.communityId),
        CorrelationId := Id(b.correlationId), ActorIdHash := Str(b.actorIdHash), RequestHash := Str(b.requestHash)]
  }

  function EncodeOwn(j: OperationJob): map<Key, Json> {
    match j
    case MonitorJob(_, invocation, locators) =>
      map[InvocationId := Id(invocation), MessageLocators := EncodeLocators(locators)]
    case InvestigationJob(_, case_, invocation, version, reason, key) =>
      map[CaseId := Id(case_), InvocationId := Id(invocation), ExpectedCaseVersion := Int(version),
          Reason := Str(reason), IdempotencyKey := Str(key)]
    case ProposeActionJob(_, case_, invocation, version, view, viewHash, key) =>
      map[CaseId := Id(case_), InvocationId := Id(invocation), ExpectedCaseVersion := Int(version),
          ViewId := Id(view), ViewHash := Str(viewHash), IdempotencyKey := Str(key)]
    case ExtractCommitmentJob(_, case_, action, evidence, invocation, sha) =>
      map[CaseId := Id(case_), ActionId := Id(action), EvidenceId := Id(evidence), InvocationId := Id(invocation),
          EvidenceSha256 := Str(sha)]
    case SendActionJob(_, case_, action, execution, approval, version, key) =>
      map[CaseId := Id(case_), ActionId := Id(action), ExecutionId := Id(execution), ApprovalId := Id(approval),
          ExpectedExecutionVersion := Int(version), IdempotencyKey := Str(key)]
  }

  function EncodeJob(j: OperationJob): Json {
    Obj(map[Schema := Str(WORKER_JOB_SCHEMA), Kind := Str(KindText(KindOf(j))),
            Job := Obj(EncodeBinding(j.binding) + EncodeOwn(j))])
  }

  // ---------- Decoding ----------

  function Identity(lib: Library, v: Json): Outcome<Uuid> {
    if v.Str? then Accept(ParseUuid(lib, v.text)) else Refused
  }

  function InstantOf(lib: Library, v: Json): Outcome<Instant> {
    if v.Str? then Accept(ParseUtc(lib, v.text)) else Refused
  }

  function NonEmptyText(v: Json): Outcome<string> {
    if v.Str? && v.text != "" then Ok(v.text) else Refused
  }

  /** A boolean is an integer in Python, and is refused here. */
  function Number(v: Json): Outcome<int> { if v.Int? then Ok(v.number) else Refused }

  function DigestField(v: Json): Outcome<Digest> {
    var s :- NonEmptyText(v);
    if DigestText(s) then Ok(s) else Refused
  }

  function NamespaceField(v: Json): Outcome<Namespace> {
    var s :- NonEmptyText(v);
    if NamespaceText(s) then Ok(s) else Refused
  }

  function DecodeLocator(lib: Library, v: Json): Outcome<MessageFeedEntry> {
    if !v.Obj? then Refused
    else
      var id :- Identity(lib, Get(v.fields, MessageId));
      var at :- InstantOf(lib, Get(v.fields, SentAt));
      Ok(MessageFeedEntry(id, at))
  }

  function LocatorsOf(lib: Library, items: seq<Json>): Outcome<seq<MessageFeedEntry>> {
    if items == [] then Ok([])
    else
      var first :- DecodeLocator(lib, items[0]);
      var rest :- LocatorsOf(lib, items[1..]);
      Ok([first] + rest)
  }

  function LocatorsField(lib: Library, v: Json): Outcome<seq<MessageFeedEntry>> {
    if !v.List? || v.items == [] || MAX_MESSAGE_LOCATORS < |v.items| then Refused else LocatorsOf(lib, v.items)
  }

  /** The locators already read, followed by what the rest reads as. */
  function After(done: seq<MessageFeedEntry>, r: Outcome<seq<MessageFeedEntry>>): Outcome<seq<MessageFeedEntry>> {
    var rest :- r;
    Ok(done + rest)
  }

  lemma AfterNothing(r: Outcome<seq<MessageFeedEntry>>)
    ensures After([], r) == r
  {
    if r.Ok? { assert [] + r.value == r.value; }
  }

  lemma LocatorsStep(lib: Library, done: seq<MessageFeedEntry>, items: seq<Json>, i: nat)
    requires i < |items|
    ensures match DecodeLocator(lib, items[i])
            case Ok(e) =>
              After(done, LocatorsOf(lib, items[i..])) == After(done + [e], LocatorsOf(lib, items[i + 1..]))
            case other => After(done, LocatorsOf(lib, items[i..])) == other.PropagateFailure()
  {
    assert items[i..][0] == items[i] && items[i..][1..] == items[i + 1..];
    match DecodeLocator(lib, items[i])
    case Ok(e) =>
      var rest := LocatorsOf(lib, items[i + 1..]);
      if rest.Ok? { assert done + [e] + rest.value == done + ([e] + rest.value); }
    case other =>
  }

  method DecodeLocators(lib: Library, raw: Json) returns (r: Outcome<seq<MessageFeedEntry>>)
    ensures r == LocatorsField(lib, raw)
  {
    hide DecodeLocator;
    if !raw.List? || raw.items == [] { return Refused; }
    if MAX_MESSAGE_LOCATORS < |raw.items| { return Refused; }
    var items := raw.items;
    var entries: seq<MessageFeedEntry> := [];
    assert items[0..] == items;
    AfterNothing(LocatorsOf(lib, items));
    for i := 0 to |items|
      invariant LocatorsOf(lib, items) == After(entries, LocatorsOf(lib, items[i..]))
    {
      LocatorsStep(lib, entries, items, i);
      var e := DecodeLocator(lib, items[i]);
      if !e.Ok? { return e.PropagateFailure(); }
      entries := entries + [e.value];
    }
    assert items[|items|..] == [] && entries + [] == entries;
    r := Ok(entries);
  }

  function DecodeBinding(lib: Library, body: map<Key, Json>): Outcome<Binding> {
    var operation :- Identity(lib, Get(body, OperationId));
    var ns :- NamespaceField(Get(body, NamespaceKey));
    var community :- Identity(lib, Get(body, CommunityId));
    var correlation :- Identity(lib, Get(body, CorrelationId));
    var actor :- DigestField(Get(body, ActorIdHash));
    var request :- DigestField(Get(body, RequestHash));
    Ok(Binding(operation, ns, community, correlation, actor, request))
  }

  function Construct(j: OperationJob): Outcome<OperationJob> { if Constructible(j) then Ok(j) else Refused }

  function DecodeBody(lib: Library, kind: WorkerJobKind, body: map<Key, Json>): Outcome<OperationJob> {
    var binding :- DecodeBinding(lib, body);
    match kind
    case MONITOR =>
      var invocation :- Identity(lib, Get(body, InvocationId));
      var locators :- LocatorsField(lib, Get(body, MessageLocators));
      Construct(MonitorJob(binding, invocation, locators))
    case INVESTIGATE =>
      var case_ :- Identity(lib, Get(body, CaseId));
      var invocation :- Identity(lib, Get(body, InvocationId));
      var version :- Number(Get(body, ExpectedCaseVersion));
      var reason :- NonEmptyText(Get(body, Reason));
      var key :- NonEmptyText(Get(body, IdempotencyKey));
      Construct(InvestigationJob(binding, case_, invocation, version, reason, key))
    case PROPOSE_ACTION =>
      var case_ :- Identity(lib, Get(body, CaseId));
      var invocation :- Identity(lib, Get(body, InvocationId));
      var version :- Number(Get(body, ExpectedCaseVersion));
      var view :- Identity(lib, Get(body, ViewId));
      var viewHash :- DigestField(Get(body, ViewHash));
      var key :- NonEmptyText(Get(body, IdempotencyKey));
      Construct(ProposeActionJob(binding, case_, invocation, version, view, viewHash, key))
    case EXTRACT_COMMITMENT =>
      var case_ :- Identity(lib, Get(body, CaseId));
      var action :- Identity(lib, Get(body, ActionId));
      var evidence :- Identity(lib, Get(body, EvidenceId));
      var invocation :- Identity(lib, Get(body, InvocationId));
      var sha :- DigestField(Get(body, EvidenceSha256));
      Construct(ExtractCommitmentJob(binding, case_, action, evidence, invocation, sha))
    case SEND_ACTION =>
      var case_ :- Identity(lib, Get(body, CaseId));
      var action :- Identity(lib, Get(body, ActionId));
      var execution :- Identity(lib, Get(body, ExecutionId));
      var approval :- Identity(lib, Get(body, ApprovalId));
      var version :- Number(Get(body, ExpectedExecutionVersion));
      var key :- NonEmptyText(Get(body, IdempotencyKey));
      Construct(SendActionJob(binding, case_, action, execution, approval, version, key))
  }

  /** Membership in the set of schema versions hashes the value first, which a list or an object cannot do. */
  predicate Unhashable(v: Json) { v.List? || v.Obj? }

  function DecodeJob(lib: Library, payload: Json): Outcome<(WorkerJobKind, OperationJob)> {
    if !payload.Obj? then Refused
    else if Unhashable(Get(payload.fields, Schema)) then Fault
    else if Get(payload.fields, Schema) != Str(WORKER_JOB_SCHEMA) then Refused
    else
      var rawKind := Get(payload.fields, Kind);
      var kind :- if rawKind.Str? then Accept(KindOfText(rawKind.text)) else Refused;
      var body := Get(payload.fields, Job);
      if !body.Obj? then Refused
      else
        var job :- DecodeBody(lib, kind, body.fields);
        Ok((kind, job))
  }

  // ---------- Exactness, field by field ----------

  /** Under this name the object carries this value. */
  predicate Holds(body: map<Key, Json>, k: Key, e: Json) { k in body && Carries(body[k], e) }

  lemma CarriesFields(body: map<Key, Json>, e: map<Key, Json>)
    ensures Carries(Obj(body), Obj(e)) <==> forall k :: k in e ==> Holds(body, k, e[k])
  {
  }

  lemma IdentityExact(lib: Library, body: map<Key, Json>, k: Key, u: Uuid)
    requires Lawful(lib)
    ensures Identity(lib, Get(body, k)) == Ok(u) <==> Holds(body, k, Id(u))
  {
    var v := Get(body, k);
    if v.Str? { ParseUuidExact(lib, v.text, u); }
  }

  lemma InstantExact(lib: Library, body: map<Key, Json>, k: Key, t: Instant)
    requires Lawful(lib)
    ensures InstantOf(lib, Get(body, k)) == Ok(t) <==> Holds(body, k, Str(FormatUtc(t)))
  {
    var v := Get(body, k);
    if v.Str? { ParseUtcExact(lib, v.text, t); }
  }

  lemma TextExact(body: map<Key, Json>, k: Key, s: string)
    ensures NonEmptyText(Get(body, k)) == Ok(s) <==> s != "" && Holds(body, k, Str(s))
  {
  }

  lemma NumberExact(body: map<Key, Json>, k: Key, n: int)
    ensures Number(Get(body, k)) == Ok(n) <==> Holds(body, k, Int(n))
  {
  }

  lemma DigestExact(body: map<Key, Json>, k: Key, d: Digest)
    ensures DigestField(Get(body, k)) == Ok(d) <==> Holds(body, k, Str(d))
  {
  }

  lemma NamespaceExact(body: map<Key, Json>, k: Key, n: Namespace)
    ensures NamespaceField(Get(body, k)) == Ok(n) <==> Holds(body, k, Str(n))
  {
  }

  lemma LocatorExact(lib: Library, v: Json, e: MessageFeedEntry)
    requires Lawful(lib)
    ensures DecodeLocator(lib, v) == Ok(e) <==> Carries(v, EncodeLocator(e))
  {
    hide Identity, InstantOf, Id, FormatUtc;
    if v.Obj? {
      IdentityExact(lib, v.fields, MessageId, e.messageId);
      InstantExact(lib, v.fields, SentAt, e.sentAt);
    }
  }

  lemma {:induction false} LocatorsExact(lib: Library, items: seq<Json>, ls: seq<MessageFeedEntry>)
    requires Lawful(lib)
    ensures LocatorsOf(lib, items) == Ok(ls) <==>
            |items| == |ls| && forall i :: 0 <= i < |ls| ==> Carries(items[i], EncodeLocator(ls[i]))
  {
    hide DecodeLocator, EncodeLocator, Carries;
    if items != [] && ls != [] {
      LocatorExact(lib, items[0], ls[0]);
      LocatorsExact(lib, items[1..], ls[1..]);
      assert ls == [ls[0]] + ls[1..];
      assert forall i :: 0 < i < |ls| ==> ls[i] == ls[1..][i - 1];
      assert forall i :: 0 < i < |items| ==> items[i] == items[1..][i - 1];
    }
  }

  lemma LocatorsFieldExact(lib: Library, body: map<Key, Json>, k: Key, ls: seq<MessageFeedEntry>)
    requires Lawful(lib)
    ensures LocatorsField(lib, Get(body, k)) == Ok(ls) <==>
            ls != [] && |ls| <= MAX_MESSAGE_LOCATORS && Holds(body, k, EncodeLocators(ls))
  {
    hide LocatorsOf, EncodeLocator;
    var v := Get(body, k);
    if v.List? { LocatorsExact(lib, v.items, ls); }
  }

  lemma BindingExact(lib: Library, body: map<Key, Json>, b: Binding)
    requires Lawful(lib)
    ensures DecodeBinding(lib, body) == Ok(b) <==> Carries(Obj(body), Obj(EncodeBinding(b)))
  {
    hide Identity, NamespaceField, DigestField, Id, Carries, Holds;
    var e := EncodeBinding(b);
    assert OperationId in e && NamespaceKey in e && CommunityId in e && CorrelationId in e && ActorIdHash in e && RequestHash in e;
    CarriesFields(body, e);
    IdentityExact(lib, body, OperationId, b.operationId);
    NamespaceExact(body, NamespaceKey, b.ns);
    IdentityExact(lib, body, CommunityId, b.communityId);
    IdentityExact(lib, body, CorrelationId, b.correlationId);
    DigestExact(body, ActorIdHash, b.actorIdHash);
    DigestExact(body, RequestHash, b.requestHash);
  }

  lemma CarriesUnion(body: map<Key, Json>, a: map<Key, Json>, b: map<Key, Json>)
    requires a.Keys !! b.Keys
    ensures Carries(Obj(body), Obj(a + b)) <==> Carries(Obj(body), Obj(a)) && Carries(Obj(body), Obj(b))
  {
    assert forall k :: k in a ==> (a + b)[k] == a[k];
    assert forall k :: k in b ==> (a + b)[k] == b[k];
  }

  lemma MonitorExact(lib: Library, body: map<Key, Json>, j: OperationJob)
    requires Lawful(lib) && j.MonitorJob?
    ensures DecodeBody(lib, MONITOR, body) == Ok(j) <==>
            && Constructible(j) && WithinWire(j)
            && Carries(Obj(body), Obj(EncodeBinding(j.binding))) && Carries(Obj(body), Obj(EncodeOwn(j)))
  {
    hide Identity, LocatorsField, Id, EncodeLocators, EncodeBinding, DecodeBinding, Carries, Holds;
    var e := EncodeOwn(j);
    assert InvocationId in e && MessageLocators in e;
    CarriesFields(body, e);
    BindingExact(lib, body, j.binding);
    IdentityExact(lib, body, InvocationId, j.invocationId);
    LocatorsFieldExact(lib, body, MessageLocators, j.locators);
  }

  lemma InvestigationExact(lib: Library, body: map<Key, Json>, j: OperationJob)
    requires Lawful(lib) && j.InvestigationJob?
    ensures DecodeBody(lib, INVESTIGATE, body) == Ok(j) <==>
            && Constructible(j) && WithinWire(j)
            && Carries(Obj(body), Obj(EncodeBinding(j.binding))) && Carries(Obj(body), Obj(EncodeOwn(j)))
  {
    hide Identity, NonEmptyText, Number, Id, EncodeBinding, DecodeBinding, Carries, Holds;
    var e := EncodeOwn(j);
    assert CaseId in e && InvocationId in e && ExpectedCaseVersion in e && Reason in e && IdempotencyKey in e;
    CarriesFields(body, e);
    BindingExact(lib, body, j.binding);
    IdentityExact(lib, body, CaseId, j.caseId);
    IdentityExact(lib, body, InvocationId, j.invocationId);
    NumberExact(body, ExpectedCaseVersion, j.expectedVersion);
    TextExact(body, Reason, j.reason);
    TextExact(body, IdempotencyKey, j.idempotencyKey);
  }

  lemma ProposeActionExact(lib: Library, body: map<Key, Json>, j: OperationJob)
    requires Lawful(lib) && j.ProposeActionJob?
    ensures DecodeBody(lib, PROPOSE_ACTION, body) == Ok(j) <==>
            && Constructible(j)
            && Carries(Obj(body), Obj(EncodeBinding(j.binding))) && Carries(Obj(body), Obj(EncodeOwn(j)))
  {
    hide Identity, NonEmptyText, Number, DigestField, Id, EncodeBinding, DecodeBinding, Carries, Holds;
    var e := EncodeOwn(j);
    assert CaseId in e && InvocationId in e && ExpectedCaseVersion in e && ViewId in e && ViewHash in e && IdempotencyKey in e;
    CarriesFields(body, e);
    BindingExact(lib, body, j.binding);
    IdentityExact(lib, body, CaseId, j.caseId);
    IdentityExact(lib, body, InvocationId, j.invocationId);
    NumberExact(body, ExpectedCaseVersion, j.expectedVersion);
    IdentityExact(lib, body, ViewId, j.viewId);
    DigestExact(body, ViewHash, j.viewHash);
    TextExact(body, IdempotencyKey, j.idempotencyKey);
  }

  lemma ExtractCommitmentExact(lib: Library, body: map<Key, Json>, j: OperationJob)
    requires Lawful(lib) && j.ExtractCommitmentJob?
    ensures DecodeBody(lib, EXTRACT_COMMITMENT, body) == Ok(j) <==>
            && Constructible(j)
            && Carries(Obj(body), Obj(EncodeBinding(j.binding))) && Carries(Obj(body), Obj(EncodeOwn(j)))
  {
    hide Identity, DigestField, Id, EncodeBinding, DecodeBinding, Carries, Holds;
    var e := EncodeOwn(j);
    assert CaseId in e && ActionId in e && EvidenceId in e && InvocationId in e && EvidenceSha256 in e;
    CarriesFields(body, e);
    BindingExact(lib, body, j.binding);
    IdentityExact(lib, body, CaseId, j.caseId);
    IdentityExact(lib, body, ActionId, j.actionId);
    IdentityExact(lib, body, EvidenceId, j.evidenceId);
    IdentityExact(lib, body, InvocationId, j.invocationId);
    DigestExact(body, EvidenceSha256, j.evidenceSha256);
  }

  lemma SendActionExact(lib: Library, body: map<Key, Json>, j: OperationJob)
    requires Lawful(lib) && j.SendActionJob?
    ensures DecodeBody(lib, SEND_ACTION, body) == Ok(j) <==>
            && Constructible(j)
            && Carries(Obj(body), Obj(EncodeBinding(j.binding))) && Carries(Obj(body), Obj(EncodeOwn(j)))
  {
    hide Identity, NonEmptyText, Number, Id, EncodeBinding, DecodeBinding, Carries, Holds;
    var e := EncodeOwn(j);
    assert CaseId in e && ActionId in e && ExecutionId in e && ApprovalId in e && ExpectedExecutionVersion in e && IdempotencyKey in e;
    CarriesFields(body, e);
    BindingExact(lib, body, j.binding);
    IdentityExact(lib, body, CaseId, j.caseId);
    IdentityExact(lib, body, ActionId, j.actionId);
    IdentityExact(lib, body, ExecutionId, j.executionId);
    IdentityExact(lib, body, ApprovalId, j.approvalId);
    NumberExact(body, ExpectedExecutionVersion, j.expectedVersion);
    TextExact(body, IdempotencyKey, j.idempotencyKey);
  }

  lemma KindDecoded(lib: Library, kind: WorkerJobKind, body: map<Key, Json>)
    ensures DecodeBody(lib, kind, body).Ok? ==> KindOf(DecodeBody(lib, kind, body).value) == kind
  {
    hide DecodeBinding, Identity, LocatorsField, NonEmptyText, Number, DigestField;
  }

  lemma DisjointNames(j: OperationJob)
    ensures EncodeBinding(j.binding).Keys !! EncodeOwn(j).Keys
  {
    hide Id, EncodeLocators;
  }

  lemma BodyExact(lib: Library, kind: WorkerJobKind, body: map<Key, Json>, j: OperationJob)
    requires Lawful(lib)
    ensures DecodeBody(lib, kind, body) == Ok(j) <==>
            && kind == KindOf(j) && Constructible(j) && WithinWire(j)
            && Carries(Obj(body), Obj(EncodeBinding(j.binding) + EncodeOwn(j)))
  {
    hide DecodeBody, EncodeBinding, EncodeOwn, Carries, Constructible;
    DisjointNames(j);
    CarriesUnion(body, EncodeBinding(j.binding), EncodeOwn(j));
    KindDecoded(lib, kind, body);
    match j
    case MonitorJob(_, _, _) => MonitorExact(lib, body, j);
    case InvestigationJob(_, _, _, _, _, _) => InvestigationExact(lib, body, j);
    case ProposeActionJob(_, _, _, _, _, _, _) => ProposeActionExact(lib, body, j);
    case ExtractCommitmentJob(_, _, _, _, _, _) => ExtractCommitmentExact(lib, body, j);
    case SendActionJob(_, _, _, _, _, _, _) => SendActionExact(lib, body, j);
  }

  // ---------- The contract ----------

  lemma EnvelopeCarries(payload: Json, j: OperationJob)
    ensures Carries(payload, EncodeJob(j)) <==>
            && payload.Obj?
            && Get(payload.fields, Schema) == Str(WORKER_JOB_SCHEMA)
            && Get(payload.fields, Kind) == Str(KindText(KindOf(j)))
            && Get(payload.fields, Job).Obj?
            && Carries(Get(payload.fields, Job), Obj(EncodeBinding(j.binding) + EncodeOwn(j)))
  {
    hide EncodeBinding, EncodeOwn, KindText;
  }

  /**
   Decoding, exactly: a payload decodes to a job if and only if the kind is the job's own, the job
   can be read back at all, and the payload carries every field of the job's
   encoding at every depth. Whatever else a payload holds changes nothing.
   */
  lemma DecodesExactly(lib: Library, payload: Json, kind: WorkerJobKind, j: OperationJob)
    requires Lawful(lib)
    ensures DecodeJob(lib, payload) == Ok((kind, j)) <==>
            kind == KindOf(j) && Survives(j) && Carries(payload, EncodeJob(j))
  {
    hide DecodeBody, EncodeBinding, EncodeOwn, Constructible, WithinWire, EncodeJob, Carries, KindText, Survives;
    SurvivesExactly(j);
    EnvelopeCarries(payload, j);
    if payload.Obj? {
      var body := Get(payload.fields, Job);
      if body.Obj? { BodyExact(lib, kind, body.fields, j); }
    }
  }

  lemma SameId(u: Uuid, v: Uuid)
    ensures Id(u) == Id(v) ==> u == v
  {
    PrintedIsUuidText(u);
    PrintedIsUuidText(v);
  }

  lemma SameLocators(ls: seq<MessageFeedEntry>, ms: seq<MessageFeedEntry>)
    requires Carries(EncodeLocators(ls), EncodeLocators(ms))
    ensures ls == ms
  {
    hide FormatUtc;
    forall i | 0 <= i < |ms| ensures ls[i] == ms[i] {
      var a, b := EncodeLocator(ls[i]), EncodeLocator(ms[i]);
      assert EncodeLocators(ls).items[i] == a && EncodeLocators(ms).items[i] == b;
      assert Carries(EncodeLocators(ls).items[i], EncodeLocators(ms).items[i]);
      Scalars(a.fields, b.fields);
      assert MessageId in b.fields && SentAt in b.fields;
      SameId(ls[i].messageId, ms[i].messageId);
      FormatUtcInjective(ls[i].sentAt, ms[i].sentAt);
    }
  }

  lemma SameBinding(a: Binding, b: Binding)
    requires Carries(Obj(EncodeBinding(a)), Obj(EncodeBinding(b)))
    ensures a == b
  {
    hide Id, Carries;
    var f := EncodeBinding(b);
    Scalars(EncodeBinding(a), f);
    assert OperationId in f && NamespaceKey in f && CommunityId in f && CorrelationId in f && ActorIdHash in f && RequestHash in f;
    SameId(a.operationId, b.operationId);
    SameId(a.communityId, b.communityId);
    SameId(a.correlationId, b.correlationId);
  }

  lemma SameMonitor(i: OperationJob, j: OperationJob)
    requires i.MonitorJob? && j.MonitorJob? && Carries(Obj(EncodeOwn(i)), Obj(EncodeOwn(j)))
    ensures i.invocationId == j.invocationId && i.locators == j.locators
  {
    hide Id, EncodeLocators, Carries;
    var f := EncodeOwn(j);
    Scalars(EncodeOwn(i), f);
    assert InvocationId in f && MessageLocators in f;
    SameId(i.invocationId, j.invocationId);
    SameLocators(i.locators, j.locators);
  }

  lemma SameInvestigation(i: OperationJob, j: OperationJob)
    requires i.InvestigationJob? && j.InvestigationJob? && Carries(Obj(EncodeOwn(i)), Obj(EncodeOwn(j)))
    ensures i.binding == j.binding ==> i == j
  {
    hide Id, Carries;
    var f := EncodeOwn(j);
    Scalars(EncodeOwn(i), f);
    assert CaseId in f && InvocationId in f && ExpectedCaseVersion in f && Reason in f && IdempotencyKey in f;
    SameId(i.caseId, j.caseId);
    SameId(i.invocationId, j.invocationId);
  }

  lemma SameProposal(i: OperationJob, j: OperationJob)
    requires i.ProposeActionJob? && j.ProposeActionJob? && Carries(Obj(EncodeOwn(i)), Obj(EncodeOwn(j)))
    ensures i.binding == j.binding ==> i == j
  {
    hide Id, Carries;
    var f := EncodeOwn(j);
    Scalars(EncodeOwn(i), f);
    assert CaseId in f && InvocationId in f && ExpectedCaseVersion in f && ViewId in f && ViewHash in f && IdempotencyKey in f;
    SameId(i.caseId, j.caseId);
    SameId(i.invocationId, j.invocationId);
    SameId(i.viewId, j.viewId);
  }

  lemma SameExtraction(i: OperationJob, j: OperationJob)
    requires i.ExtractCommitmentJob? && j.ExtractCommitmentJob? && Carries(Obj(EncodeOwn(i)), Obj(EncodeOwn(j)))
    ensures i.binding == j.binding ==> i == j
  {
    hide Id, Carries;
    var f := EncodeOwn(j);
    Scalars(EncodeOwn(i), f);
    assert CaseId in f && ActionId in f && EvidenceId in f && InvocationId in f && EvidenceSha256 in f;
    SameId(i.caseId, j.caseId);
    SameId(i.actionId, j.actionId);
    SameId(i.evidenceId, j.evidenceId);
    SameId(i.invocationId, j.invocationId);
  }

  lemma SameSend(i: OperationJob, j: OperationJob)
    requires i.SendActionJob? && j.SendActionJob? && Carries(Obj(EncodeOwn(i)), Obj(EncodeOwn(j)))
    ensures i.binding == j.binding ==> i == j
  {
    hide Id, Carries;
    var f := EncodeOwn(j);
    Scalars(EncodeOwn(i), f);
    assert CaseId in f && ActionId in f && ExecutionId in f && ApprovalId in f;
    assert ExpectedExecutionVersion in f && IdempotencyKey in f;
    SameId(i.caseId, j.caseId);
    SameId(i.actionId, j.actionId);
    SameId(i.executionId, j.executionId);
    SameId(i.approvalId, j.approvalId);
  }

  lemma SameOwn(i: OperationJob, j: OperationJob)
    requires KindOf(i) == KindOf(j) && i.binding == j.binding
    requires Carries(Obj(EncodeOwn(i)), Obj(EncodeOwn(j)))
    ensures i == j
  {
    hide EncodeOwn, Carries;
    match j
    case MonitorJob(_, _, _) => SameMonitor(i, j);
    case InvestigationJob(_, _, _, _, _, _) => SameInvestigation(i, j);
    case ProposeActionJob(_, _, _, _, _, _, _) => SameProposal(i, j);
    case ExtractCommitmentJob(_, _, _, _, _, _) => SameExtraction(i, j);
    case SendActionJob(_, _, _, _, _, _, _) => SameSend(i, j);
  }

  lemma EncodedBody(i: OperationJob)
    ensures EncodeJob(i).Obj? && Get(EncodeJob(i).fields, Job) == Obj(EncodeBinding(i.binding) + EncodeOwn(i))
  {
  }

  lemma SameNames(i: OperationJob, j: OperationJob)
    ensures EncodeBinding(i.binding).Keys == EncodeBinding(j.binding).Keys
    ensures KindOf(i) == KindOf(j) ==> EncodeOwn(i).Keys == EncodeOwn(j).Keys
  {
    hide Id, EncodeLocators;
  }

  /** Of the two disjoint halves of a body, each carries the half of the same names. */
  lemma OwnPart(i: OperationJob, j: OperationJob)
    requires KindOf(i) == KindOf(j)
    requires Carries(Obj(EncodeBinding(i.binding) + EncodeOwn(i)), Obj(EncodeBinding(j.binding)))
    requires Carries(Obj(EncodeBinding(i.binding) + EncodeOwn(i)), Obj(EncodeOwn(j)))
    ensures Carries(Obj(EncodeBinding(i.binding)), Obj(EncodeBinding(j.binding)))
    ensures Carries(Obj(EncodeOwn(i)), Obj(EncodeOwn(j)))
  {
    hide EncodeBinding, EncodeOwn;
    SameNames(i, j);
    DisjointNames(i);
    var e, own := EncodeBinding(i.binding), EncodeOwn(i);
    assert forall k :: k in own ==> (e + own)[k] == own[k];
    assert forall k :: k in e ==> (e + own)[k] == e[k];
  }

  /** No job's encoding carries another's, so encoding is injective across all five kinds. */
  lemma EncodingDetermines(i: OperationJob, j: OperationJob)
    requires Carries(EncodeJob(i), EncodeJob(j))
    ensures i == j
  {
    hide EncodeBinding, EncodeOwn, KindText, EncodeJob, Carries;
    EnvelopeCarries(EncodeJob(i), j);
    CarriesItself(EncodeJob(i));
    EnvelopeCarries(EncodeJob(i), i);
    KindTextsDiffer();
    assert KindText(KindOf(i)) == KindText(KindOf(j));
    var own, body := EncodeOwn(i), EncodeBinding(i.binding) + EncodeOwn(i);
    assert Get(EncodeJob(i).fields, Job) == Obj(body) by { EncodedBody(i); }
    DisjointNames(j);
    CarriesUnion(body, EncodeBinding(j.binding), EncodeOwn(j));
    OwnPart(i, j);
    SameBinding(i.binding, j.binding);
    SameOwn(i, j);
  }

  lemma EncodedSchema(j: OperationJob)
    ensures EncodeJob(j).Obj? && Get(EncodeJob(j).fields, Schema) == Str(WORKER_JOB_SCHEMA)
  {
  }

  lemma {:induction false} LocatorsNeverFault(lib: Library, items: seq<Json>)
    ensures !LocatorsOf(lib, items).Fault?
  {
    if items != [] { LocatorsNeverFault(lib, items[1..]); }
  }

  lemma BodyNeverFaults(lib: Library, kind: WorkerJobKind, body: map<Key, Json>)
    ensures !DecodeBody(lib, kind, body).Fault?
  {
    hide ParseUuid, ParseUtc, NamespaceText, DigestText, LocatorsOf;
    if Get(body, MessageLocators).List? { LocatorsNeverFault(lib, Get(body, MessageLocators).items); }
  }

  /**
   The decoder promises one refusal for every malformed event. It breaks that promise exactly when
   the declared schema version is a list or an object: the membership test hashes it, and the
   `TypeError` escapes.
   */
  lemma FaultsExactly(lib: Library, payload: Json)
    ensures DecodeJob(lib, payload).Fault? <==>
            payload.Obj? && (Get(payload.fields, Schema).List? || Get(payload.fields, Schema).Obj?)
  {
    hide DecodeBody;
    if payload.Obj? {
      var body := Get(payload.fields, Job);
      if body.Obj? {
        forall kind ensures !DecodeBody(lib, kind, body.fields).Fault? { BodyNeverFaults(lib, kind, body.fields); }
      }
    }
  }

  /**
   The round trip, and exactly when it holds. The constructors accept a batch of any size and an
   investigation with an empty key; the decoder refuses both, so those jobs encode and never decode.
   */
  lemma JobRoundTrip(lib: Library, j: OperationJob)
    requires Lawful(lib)
    ensures DecodeJob(lib, EncodeJob(j)) == if Survives(j) then Ok((KindOf(j), j)) else Refused
  {
    hide DecodeJob, EncodeJob, Carries, Survives;
    CarriesItself(EncodeJob(j));
    DecodesExactly(lib, EncodeJob(j), KindOf(j), j);
    var r := DecodeJob(lib, EncodeJob(j));
    FaultsExactly(lib, EncodeJob(j));
    EncodedSchema(j);
    if r.Ok? {
      var (k, i) := r.value;
      DecodesExactly(lib, EncodeJob(j), k, i);
      EncodingDetermines(j, i);
    }
  }

  // ---------- What is on the wire, by name ----------

  /** Two parts of an object with no name in common spell what they spell together. */
  lemma SpellsUnion(a: map<Key, Json>, xs: seq<(string, Json)>, b: map<Key, Json>, ys: seq<(string, Json)>)
    requires Spells(a, xs) && Spells(b, ys) && a.Keys !! b.Keys
    ensures Spells(a + b, xs + ys)
  {
    hide KeyName;
    var c := a + b;
    forall m | m in xs + ys ensures exists k :: k in c && (KeyName(k), c[k]) == m {
      if m in xs {
        var k :| k in a && (KeyName(k), a[k]) == m;
        assert k in c && c[k] == a[k];
      } else {
        var k :| k in b && (KeyName(k), b[k]) == m;
        assert k in c && c[k] == b[k];
      }
    }
  }

  function BindingMembers(j: OperationJob): seq<(string, Json)> {
    [("operation_id", Str(PrintUuid(j.binding.operationId))), ("namespace", Str(j.binding.ns)),
     ("community_id", Str(PrintUuid(j.binding.communityId))),
     ("correlation_id", Str(PrintUuid(j.binding.correlationId))), ("actor_id_hash", Str(j.binding.actorIdHash)),
     ("request_hash", Str(j.binding.requestHash))]
  }

  lemma BindingSpells(j: OperationJob)
    ensures Spells(EncodeBinding(j.binding), BindingMembers(j))
  {
    hide PrintUuid;
    SpellsListed(EncodeBinding(j.binding), [OperationId, NamespaceKey, CommunityId, CorrelationId, ActorIdHash, RequestHash],
      BindingMembers(j));
  }

  lemma EnvelopeSpells(j: OperationJob, kind: string)
    requires kind == KindText(KindOf(j))
    ensures Spells(EncodeJob(j).fields,
              [("schema", Str("worker-job/v1")), ("kind", Str(kind)), ("job", Obj(EncodeBinding(j.binding) + EncodeOwn(j)))])
  {
    hide EncodeBinding, EncodeOwn, KindText;
    var f := EncodeJob(j).fields;
    assert Schema in f && Kind in f && Job in f;
  }

  /** The members of each kind of job beside those of every job, by name. */
  function OwnMembers(j: OperationJob): seq<(string, Json)> {
    match j
    case MonitorJob(_, _, _) =>
      [("invocation_id", Str(PrintUuid(j.invocationId))), ("message_locators", EncodeLocators(j.locators))]
    case InvestigationJob(_, _, _, _, _, _) =>
      [("case_id", Str(PrintUuid(j.caseId))), ("invocation_id", Str(PrintUuid(j.invocationId))),
       ("expected_case_version", Int(j.expectedVersion)), ("reason", Str(j.reason)),
       ("idempotency_key", Str(j.idempotencyKey))]
    case ProposeActionJob(_, _, _, _, _, _, _) =>
      [("case_id", Str(PrintUuid(j.caseId))), ("invocation_id", Str(PrintUuid(j.invocationId))),
       ("expected_case_version", Int(j.expectedVersion)), ("view_id", Str(PrintUuid(j.viewId))),
       ("view_hash", Str(j.viewHash)), ("idempotency_key", Str(j.idempotencyKey))]
    case ExtractCommitmentJob(_, _, _, _, _, _) =>
      [("case_id", Str(PrintUuid(j.caseId))), ("action_id", Str(PrintUuid(j.actionId))),
       ("evidence_id", Str(PrintUuid(j.evidenceId))), ("invocation_id", Str(PrintUuid(j.invocationId))),
       ("evidence_sha256", Str(j.evidenceSha256))]
    case SendActionJob(_, _, _, _, _, _, _) =>
      [("case_id", Str(PrintUuid(j.caseId))), ("action_id", Str(PrintUuid(j.actionId))),
       ("execution_id", Str(PrintUuid(j.executionId))), ("approval_id", Str(PrintUuid(j.approvalId))),
       ("expected_execution_version", Int(j.expectedVersion)), ("idempotency_key", Str(j.idempotencyKey))]
  }

  lemma MonitorMembers(j: OperationJob)
    requires j.MonitorJob?
    ensures Spells(EncodeOwn(j), OwnMembers(j))
  {
    hide PrintUuid, EncodeLocators;
    SpellsListed(EncodeOwn(j), [InvocationId, MessageLocators], OwnMembers(j));
  }

  lemma InvestigationMembers(j: OperationJob)
    requires j.InvestigationJob?
    ensures Spells(EncodeOwn(j), OwnMembers(j))
  {
    hide PrintUuid, EncodeLocators;
    SpellsListed(EncodeOwn(j), [CaseId, InvocationId, ExpectedCaseVersion, Reason, IdempotencyKey], OwnMembers(j));
  }

  lemma ProposeActionMembers(j: OperationJob)
    requires j.ProposeActionJob?
    ensures Spells(EncodeOwn(j), OwnMembers(j))
  {
    hide PrintUuid, EncodeLocators;
    SpellsListed(EncodeOwn(j), [CaseId, InvocationId, ExpectedCaseVersion, ViewId, ViewHash, IdempotencyKey], OwnMembers(j));
  }

  lemma ExtractionMembers(j: OperationJob)
    requires j.ExtractCommitmentJob?
    ensures Spells(EncodeOwn(j), OwnMembers(j))
  {
    hide PrintUuid, EncodeLocators;
    SpellsListed(EncodeOwn(j), [CaseId, ActionId, EvidenceId, InvocationId, EvidenceSha256], OwnMembers(j));
  }

  lemma SendActionMembers(j: OperationJob)
    requires j.SendActionJob?
    ensures Spells(EncodeOwn(j), OwnMembers(j))
  {
    hide PrintUuid, EncodeLocators;
    SpellsListed(EncodeOwn(j), [CaseId, ActionId, ExecutionId, ApprovalId, ExpectedExecutionVersion, IdempotencyKey], OwnMembers(j));
  }

  lemma BodySpells(j: OperationJob)
    ensures EncodeBinding(j.binding).Keys !! EncodeOwn(j).Keys
    ensures Spells(EncodeBinding(j.binding) + EncodeOwn(j), BindingMembers(j) + OwnMembers(j))
  {
    hide EncodeBinding, EncodeOwn, BindingMembers, OwnMembers, Spells;
    BindingSpells(j);
    DisjointNames(j);
    match j {
      case MonitorJob(_, _, _) => MonitorMembers(j);
      case InvestigationJob(_, _, _, _, _, _) => InvestigationMembers(j);
      case ProposeActionJob(_, _, _, _, _, _, _) => ProposeActionMembers(j);
      case ExtractCommitmentJob(_, _, _, _, _, _) => ExtractionMembers(j);
      case SendActionJob(_, _, _, _, _, _, _) => SendActionMembers(j);
    }
    SpellsUnion(EncodeBinding(j.binding), BindingMembers(j), EncodeOwn(j), OwnMembers(j));
  }

  /**
   Every job, member by member: the schema, the kind and the job in the envelope, and in the job what
   every job carries and what its own kind does, each under its own name and nothing more.
   */
  lemma JobOnTheWire(j: OperationJob)
    ensures EncodeJob(j).Obj? && EncodeBinding(j.binding).Keys !! EncodeOwn(j).Keys
    ensures Spells(EncodeJob(j).fields,
              [("schema", Str("worker-job/v1")),
               ("kind", Str(match j
                            case MonitorJob(_, _, _) => "MONITOR"
                            case InvestigationJob(_, _, _, _, _, _) => "INVESTIGATE"
                            case ProposeActionJob(_, _, _, _, _, _, _) => "PROPOSE_ACTION"
                            case ExtractCommitmentJob(_, _, _, _, _, _) => "EXTRACT_COMMITMENT"
                            case SendActionJob(_, _, _, _, _, _, _) => "SEND_ACTION")),
               ("job", Obj(EncodeBinding(j.binding) + EncodeOwn(j)))])
    ensures Spells(EncodeBinding(j.binding) + EncodeOwn(j), BindingMembers(j) + OwnMembers(j))
  {
    EnvelopeSpells(j, KindText(KindOf(j)));
    BodySpells(j);
    hide EncodeBinding, EncodeOwn, BindingMembers, OwnMembers, Spells;
    EncodedSchema(j);
  }

  lemma LocatorsOnTheWire(ls: seq<MessageFeedEntry>, i: nat)
    requires i < |ls|
    ensures var v := EncodeLocators(ls);
            && v.List? && |v.items| == |ls| && v.items[i].Obj?
            && Spells(v.items[i].fields, [("message_id", Str(PrintUuid(ls[i].messageId))), ("sent_at", Str(FormatUtc(ls[i].sentAt)))])
  {
    hide PrintUuid, FormatUtc;
    var f := EncodeLocator(ls[i]).fields;
    assert MessageId in f && SentAt in f;
  }

  // ---------- Jobs the wire refuses ----------

  function HexDigit(d: nat): (c: char)
    requires d < 16
    ensures LowerHex(c)
  {
    if d < 10 then Digit(d) else (d - 10 + 'a' as int) as char
  }

  lemma HexDigitsDiffer(c: nat, d: nat)
    requires c < 16 && d < 16
    ensures HexDigit(c) == HexDigit(d) ==> c == d
  {
  }

  /** Identifiers told apart by their first three digits. */
  function NumberedId(n: nat): Uuid
    requires n < 4096
  {
    [HexDigit(n / 16 / 16), HexDigit(n / 16 % 16), HexDigit(n % 16)] + seq(29, _ => '0')
  }

  lemma NumberedIdsDiffer(m: nat, n: nat)
    requires m < 4096 && n < 4096
    ensures NumberedId(m) == NumberedId(n) ==> m == n
  {
    hide HexDigit;
    if NumberedId(m) == NumberedId(n) {
      var a, b := NumberedId(m), NumberedId(n);
      assert a[0] == HexDigit(m / 16 / 16) && a[1] == HexDigit(m / 16 % 16) && a[2] == HexDigit(m % 16);
      assert b[0] == HexDigit(n / 16 / 16) && b[1] == HexDigit(n / 16 % 16) && b[2] == HexDigit(n % 16);
      HexDigitsDiffer(m / 16 / 16, n / 16 / 16);
      HexDigitsDiffer(m / 16 % 16, n / 16 % 16);
      HexDigitsDiffer(m % 16, n % 16);
    }
  }

  function Batch(size: nat, sentAt: Instant): seq<MessageFeedEntry>
    requires size <= 4096
  {
    seq(size, i requires 0 <= i < size => MessageFeedEntry(NumberedId(i), sentAt))
  }

  /** A batch of distinct messages decodes to itself up to 500 of them; one more, and what was built and encoded is refused. */
  lemma OversizedBatchRefused(lib: Library, b: Binding, invocation: Uuid, sentAt: Instant, size: nat)
    requires Lawful(lib) && 1 <= size <= 4096
    ensures var j := MonitorJob(b, invocation, Batch(size, sentAt));
            && Constructible(j)
            && DecodeJob(lib, EncodeJob(j)) == if size <= 500 then Ok((MONITOR, j)) else Refused
  {
    var j := MonitorJob(b, invocation, Batch(size, sentAt));
    assert Distinct(j.locators) by {
      hide NumberedId;
      forall m, n | 0 <= m < n < size ensures j.locators[m].messageId != j.locators[n].messageId {
        NumberedIdsDiffer(m, n);
      }
    }
    hide DecodeJob, EncodeJob;
    JobRoundTrip(lib, j);
  }

  /** An investigation with an empty key is built and encoded, and refused whatever else it holds. */
  lemma EmptyKeyRefused(lib: Library, b: Binding, caseId: Uuid, invocation: Uuid, version: nat, reason: string, key: string)
    requires Lawful(lib) && version != 0 && reason != ""
    ensures var j := InvestigationJob(b, caseId, invocation, version, reason, key);
            && Constructible(j)
            && DecodeJob(lib, EncodeJob(j)) == if key == "" then Refused else Ok((INVESTIGATE, j))
  {
    hide DecodeJob, EncodeJob;
    JobRoundTrip(lib, InvestigationJob(b, caseId, invocation, version, reason, key));
  }
}
