/** JSON values as the handlers receive them, and refusals. */
module Wire {
  import opened Text

  const MEMBER_NAMES: seq<string> :=
    ["operation", "payload", "schema", "kind", "job", "operation_id", "namespace",
     "community_id", "case_id", "action_id", "evidence_id", "execution_id", "approval_id", "invocation_id",
     "correlation_id", "actor_id_hash", "request_hash", "expected_case_version", "expected_execution_version", "reason", "idempotency_key",
     "view_id", "view_hash", "evidence_sha256", "message_locators", "message_id", "sent_at"]

  type OtherMember = s: string | s !in MEMBER_NAMES witness ""

  /** The member names the handlers declare; any other name may be present as well. */
  datatype Key =
    | Operation | Payload
    | Schema | Kind | Job
    | OperationId | NamespaceKey | CommunityId | CaseId | ActionId | EvidenceId | ExecutionId | ApprovalId
    | InvocationId | CorrelationId | ActorIdHash | RequestHash
    | ExpectedCaseVersion | ExpectedExecutionVersion | Reason | IdempotencyKey
    | ViewId | ViewHash | EvidenceSha256
    | MessageLocators | MessageId | SentAt
    | OtherKey(name: OtherMember)

  datatype Json =
    | Null
    | Bool(truth: bool)
    | Int(number: int)
    | Real(digits: string)
    | Str(text: string)
    | List(items: seq<Json>)
    | Obj(fields: map<Key, Json>)

  function KeyName(k: Key): string {
    match k
    case Operation => "operation"
    case Payload => "payload"
    case Schema => "schema"
    case Kind => "kind"
    case Job => "job"
    case OperationId => "operation_id"
    case NamespaceKey => "namespace"
    case CommunityId => "community_id"
    case CaseId => "case_id"
    case ActionId => "action_id"
    case EvidenceId => "evidence_id"
    case ExecutionId => "execution_id"
    case ApprovalId => "approval_id"
    case InvocationId => "invocation_id"
    case CorrelationId => "correlation_id"
    case ActorIdHash => "actor_id_hash"
    case RequestHash => "request_hash"
    case ExpectedCaseVersion => "expected_case_version"
    case ExpectedExecutionVersion => "expected_execution_version"
    case Reason => "reason"
    case IdempotencyKey => "idempotency_key"
    case ViewId => "view_id"
    case ViewHash => "view_hash"
    case EvidenceSha256 => "evidence_sha256"
    case MessageLocators => "message_locators"
    case MessageId => "message_id"
    case SentAt => "sent_at"
    case OtherKey(name) => name
  }

  /** The length and the first letter of each declared name. */
  function Mark(k: Key): (nat, char) {
    match k
    case Operation => (9, 'o')
    case Payload => (7, 'p')
    case Schema => (6, 's')
    case Kind => (4, 'k')
    case Job => (3, 'j')
    case OperationId => (12, 'o')
    case NamespaceKey => (9, 'n')
    case CommunityId => (12, 'c')
    case CaseId => (7, 'c')
    case ActionId => (9, 'a')
    case EvidenceId => (11, 'e')
    case ExecutionId => (12, 'e')
    case ApprovalId => (11, 'a')
    case InvocationId => (13, 'i')
    case CorrelationId => (14, 'c')
    case ActorIdHash => (13, 'a')
    case RequestHash => (12, 'r')
    case ExpectedCaseVersion => (21, 'e')
    case ExpectedExecutionVersion => (26, 'e')
    case Reason => (6, 'r')
    case IdempotencyKey => (15, 'i')
    case ViewId => (7, 'v')
    case ViewHash => (9, 'v')
    case EvidenceSha256 => (15, 'e')
    case MessageLocators => (16, 'm')
    case MessageId => (10, 'm')
    case SentAt => (7, 's')
    case OtherKey(_) => (0, ' ')
  }

  lemma NamesAreMarked(k: Key)
    requires !k.OtherKey?
    ensures KeyName(k) in MEMBER_NAMES && KeyName(k) != "" && Mark(k) == (|KeyName(k)|, KeyName(k)[0])
  {
  }

  lemma MarksDiffer(j: Key, k: Key)
    requires !j.OtherKey? && !k.OtherKey?
    ensures Mark(j) == Mark(k) ==> j == k
  {
  }

  /** No two members have the same name: the declared ones are told apart by length and first letter. */
  lemma KeyNamesDiffer(j: Key, k: Key)
    ensures KeyName(j) == KeyName(k) ==> j == k
  {
    if j.OtherKey? && k.OtherKey? { return; }
    hide Mark;
    if !j.OtherKey? { NamesAreMarked(j); }
    if !k.OtherKey? { NamesAreMarked(k); }
    if !j.OtherKey? && !k.OtherKey? {
      hide KeyName;
      MarksDiffer(j, k);
    }
  }

  /** The object has exactly these members, under these names. */
  ghost predicate Spells(fields: map<Key, Json>, members: seq<(string, Json)>) {
    && (forall k :: k in fields ==> (KeyName(k), fields[k]) in members)
    && (forall m :: m in members ==> exists k :: k in fields && (KeyName(k), fields[k]) == m)
  }

  lemma SpellsListed(fields: map<Key, Json>, keys: seq<Key>, members: seq<(string, Json)>)
    requires forall k :: k in fields <==> k in keys
    requires |keys| == |members| && forall i :: 0 <= i < |keys| ==> members[i] == (KeyName(keys[i]), fields[keys[i]])
    ensures Spells(fields, members)
  {
    hide KeyName;
    forall m | m in members ensures exists k :: k in fields && (KeyName(k), fields[k]) == m {
      var i :| 0 <= i < |members| && members[i] == m;
      assert keys[i] in fields;
    }
  }

  /** `d.get(name)`: an absent member reads as null. */
  function Get(fields: map<Key, Json>, k: Key): Json { if k in fields then fields[k] else Null }

  /** `p` carries everything `e` declares, at every depth, and objects may carry more. */
  predicate Carries(p: Json, e: Json)
    decreases e
  {
    match e
    case Obj(fields) => p.Obj? && forall k :: k in fields ==> k in p.fields && Carries(p.fields[k], fields[k])
    case List(items) => p.List? && |p.items| == |items| && forall i :: 0 <= i < |items| ==> Carries(p.items[i], items[i])
    case _ => p == e
  }

  lemma {:induction false} CarriesItself(e: Json)
    ensures Carries(e, e)
    decreases e
  {
    match e {
      case Obj(fields) => forall k | k in fields ensures Carries(fields[k], fields[k]) { CarriesItself(fields[k]); }
      case List(items) => forall i | 0 <= i < |items| ensures Carries(items[i], items[i]) { CarriesItself(items[i]); }
      case _ =>
    }
  }

  /** What carrying an object's scalars comes to. */
  lemma Scalars(p: map<Key, Json>, e: map<Key, Json>)
    requires Carries(Obj(p), Obj(e))
    ensures forall k :: k in e ==> k in p && Carries(p[k], e[k])
    ensures forall k :: k in e && !e[k].Obj? && !e[k].List? ==> p[k] == e[k]
  {
    forall k | k in e && !e[k].Obj? && !e[k].List? ensures p[k] == e[k] {
      assert Carries(p[k], e[k]);
    }
  }

  /** A value, the module's own refusal, or a `TypeError` nobody catches. */
  datatype Outcome<+T> = Ok(value: T) | Refused | Fault {
    predicate IsFailure() { !Ok? }
    function PropagateFailure<U>(): Outcome<U>
      requires IsFailure()
    {
      if Refused? then Refused else Fault
    }
    function Extract(): T
      requires !IsFailure()
    {
      value
    }
  }

  function Accept<T>(o: Option<T>): Outcome<T> {
    match o
    case Some(v) => Ok(v)
    case None => Refused
  }
}
