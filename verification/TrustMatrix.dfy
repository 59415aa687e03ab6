/**
 The DynamoDB statements of the application, compiler, sender, watcher and reset roles, and what
 they decide: one small table per role, and the separation between the principals.
 */
module TrustMatrix {
  import opened Text
  import opened Iam
  import opened PartitionKeys

  const READ_ACTIONS: set<Action> := {GetItem, BatchGetItem, Query}
  const WRITE_ACTIONS: set<Action> := {PutItem, UpdateItem, DeleteItem}

  const VIEW_FAMILIES: seq<NamedFamily> := [ViewFamily, ViewCurrentFamily]
  const API_FAMILIES: seq<NamedFamily> := [ActionFamily, ActionCurrentFamily, ExecutionFamily, CaseFamily]
  const WORKER_FAMILIES: seq<NamedFamily> :=
    [ActionFamily, ActionCurrentFamily, ExecutionFamily, OutboundMessageFamily, CaseFamily]
  const COMPILER_READ_FAMILIES: seq<NamedFamily> :=
    [ViewFamily, ViewCurrentFamily, ActionFamily, ActionCurrentFamily]
  const SENDER_FORBIDDEN: seq<NamedFamily> :=
    [ActionFamily, ActionCurrentFamily, OutboundMessageFamily, ViewFamily, ViewCurrentFamily, CaseFamily]
  const WATCHER_FORBIDDEN: seq<NamedFamily> :=
    [ActionFamily, ActionCurrentFamily, ExecutionFamily, OutboundMessageFamily, ViewFamily, ViewCurrentFamily]

  const TRANSACT_WRITE := "TransactWriteItems"

  // ---------- Statement shapes ----------

  function FamilyPatternOf(f: NamedFamily): string {
    FamilyPatternMatches(f, Control(""));
    FamilyPattern(FamilyName(f))
  }

  function Patterns(families: seq<NamedFamily>): (r: seq<string>)
    ensures |r| == |families| && forall i :: 0 <= i < |r| ==> r[i] == FamilyPatternOf(families[i])
  {
    seq(|families|, i requires 0 <= i < |families| => FamilyPatternOf(families[i]))
  }

  function OnTableOnly(sid: string, effect: Effect, actions: set<Action>, table: Table): Statement {
    Statement(sid, effect, Actions(actions), [TableArn(table)], [])
  }

  /** The leading-keys condition every keyed statement uses: all keys to allow, any key to deny. */
  function Keyed(effect: Effect, values: seq<string>): Condition {
    LeadingKeys(if effect == Allow then ForAllValues else ForAnyValue, StringLike, values)
  }

  function OnKeys(sid: string, effect: Effect, actions: set<Action>, table: Table, values: seq<string>): Statement {
    Statement(sid, effect, Actions(actions), [TableArn(table)], [Keyed(effect, values)])
  }

  function InTransaction(s: Statement): Statement {
    s.(conditions := s.conditions + [EnclosingOperation(TRANSACT_WRITE)])
  }

  // ---------- Statements ----------

  const READ_WRITE_PRIVATE_CORE := OnTableOnly("ReadWritePrivateCore", Allow,
    READ_ACTIONS + WRITE_ACTIONS + {ConditionCheckItem}, Core)
  const READ_SHAREABLE := OnTableOnly("ReadShareable", Allow, READ_ACTIONS, Shareable)
  const CHECK_VIEW_POINTER := InTransaction(OnKeys("ConditionCheckCurrentViewPointer", Allow,
    {ConditionCheckItem}, Shareable, Patterns(VIEW_FAMILIES)))
  const DENY_VIEW_WRITES := OnKeys("DenyViewPartitionWrites", Deny, WRITE_ACTIONS, Shareable, Patterns(VIEW_FAMILIES))
  const API_WRITES := OnKeys("WriteApiActionAndCasePrefixesOnly", Allow,
    WRITE_ACTIONS + {ConditionCheckItem}, Shareable, Patterns(API_FAMILIES))
  const ADVANCE_CLOCK := OnKeys("AdvanceDemoClockItemOnly", Allow, {PutItem}, Shareable, [DEMO_CLOCK])
  const WORKER_WRITES := OnKeys("WriteActionAndCasePrefixesOnly", Allow,
    WRITE_ACTIONS + {ConditionCheckItem}, Shareable, Patterns(WORKER_FAMILIES))
  const READ_CLOCK := OnKeys("ReadDemoClockItemOnly", Allow, {GetItem}, Shareable, [DEMO_CLOCK])

  function AppendAudit(actions: set<Action>): Statement { OnTableOnly("AppendAudit", Allow, actions, Audit) }

  function DenyClockWrites(sid: string): Statement {
    OnKeys(sid, Deny, WRITE_ACTIONS + {ConditionCheckItem}, Shareable, [DEMO_CLOCK])
  }

  const READ_PRIVATE_CORE := OnTableOnly("ReadPrivateCore", Allow, READ_ACTIONS, Core)
  const CHECK_CASE := InTransaction(OnKeys("ConditionCheckCaseVersion", Allow, {ConditionCheckItem}, Core, Patterns([CaseFamily])))
  const CHECK_FENCE := InTransaction(OnKeys("ConditionCheckSendFence", Allow, {ConditionCheckItem}, Core, Patterns([FenceFamily])))
  const WRITE_FENCE := OnKeys("WriteSendFenceOnly", Allow, {PutItem, DeleteItem}, Core, Patterns([FenceFamily]))
  const WRITE_VIEWS := OnKeys("WriteViewPrefixesOnly", Allow,
    {PutItem, GetItem, BatchGetItem, Query}, Shareable, Patterns(VIEW_FAMILIES))
  const READ_VIEWS_AND_ACTIONS := OnKeys("ReadShareableViewAndActionPrefixes", Allow,
    READ_ACTIONS, Shareable, Patterns(COMPILER_READ_FAMILIES))
  const DENY_CASE_WRITES := OnKeys("DenyCasePartitionWrites", Deny, WRITE_ACTIONS, Core, Patterns([CaseFamily]))

  const CHECK_RESET_LOCK := Statement("ConditionCheckDemoResetLock", Allow, Actions({ConditionCheckItem}),
    [TableArn(Core)], [LeadingKeys(ForAllValues, StringEquals, [DEMO_CONTROL])])
  const DENY_OTHER_CHECKS := Statement("DenyOtherCoreConditions", Deny, Actions({ConditionCheckItem}),
    [TableArn(Core), BelowTable(Core)], [LeadingKeys(ForAnyValue, StringNotEquals, [DEMO_CONTROL])])
  const DENY_CORE := Statement("DenyAllCoreAccess", Deny, NotActions({ConditionCheckItem}),
    [TableArn(Core), BelowTable(Core)], [])

  const WRITE_EXECUTION := OnKeys("WriteExecutionPartitionOnly", Allow,
    {PutItem, ConditionCheckItem}, Shareable, Patterns([ExecutionFamily]))
  const SENDER_DENIED := OnKeys("DenyProposalApprovalViewAndCaseWrites", Deny,
    WRITE_ACTIONS, Shareable, Patterns(SENDER_FORBIDDEN) + [DEMO_CLOCK])
  const READ_CASE := OnKeys("ReadCasePartitionOnly", Allow, READ_ACTIONS, Shareable, Patterns([CaseFamily]))
  const WRITE_CASE := OnKeys("WriteCasePartitionOnly", Allow, {PutItem, ConditionCheckItem}, Shareable, Patterns([CaseFamily]))
  const WATCHER_DENIED := OnKeys("DenyNonCasePartitionWrites", Deny,
    WRITE_ACTIONS, Shareable, Patterns(WATCHER_FORBIDDEN) + [DEMO_CLOCK])

  const RESET_ACTIONS := READ_ACTIONS + {PutItem, DeleteItem, BatchWriteItem, ConditionCheckItem}
  const DEMO_NAMESPACE: seq<string> := [DEMO_CONTROL, "NS#DEMO#*"]

  function DemoNamespace(sid: string, table: Table): Statement {
    OnKeys(sid, Allow, RESET_ACTIONS, table, DEMO_NAMESPACE)
  }

  const DENY_DESTRUCTIVE := Statement("DenyDestructiveAccountOperations", Deny,
    Actions({DeleteTable, CreateTable, Scan}), [AnyResource], [])

  // ---------- The policies ----------

  function SharedDataPlane(): seq<Statement> {
    [READ_WRITE_PRIVATE_CORE, READ_SHAREABLE, CHECK_VIEW_POINTER, AppendAudit({PutItem, GetItem, Query}),
     DENY_VIEW_WRITES]
  }

  function DemoResetCondition(denyOtherConditions: bool): seq<Statement> {
    [CHECK_RESET_LOCK] + if denyOtherConditions then [DENY_OTHER_CHECKS] else []
  }

  const API_OWN := [API_WRITES, ADVANCE_CLOCK]
  const WORKER_OWN := [WORKER_WRITES, READ_CLOCK, DenyClockWrites("DenyWorkerDemoClockWrites")]
  const COMPILER_CORE := [READ_PRIVATE_CORE, CHECK_CASE, CHECK_FENCE, WRITE_FENCE]
  const COMPILER_SHAREABLE := [WRITE_VIEWS, READ_VIEWS_AND_ACTIONS, READ_CLOCK]
  const COMPILER_REST :=
    [AppendAudit({PutItem, GetItem}), DENY_CASE_WRITES, DenyClockWrites("DenyCompilerDemoClockWrites")]
  const SENDER_GRANTS := [READ_SHAREABLE, WRITE_EXECUTION, AppendAudit({PutItem})]
  const WATCHER_GRANTS := [READ_CASE, READ_CLOCK, WRITE_CASE, AppendAudit({PutItem})]

  datatype Principal = Api | Worker | Compiler | Sender | Watcher | Reset

  function PolicyOf(p: Principal): seq<Statement> {
    match p
    case Api => SharedDataPlane() + API_OWN
    case Worker => SharedDataPlane() + WORKER_OWN
    case Compiler =>
      COMPILER_CORE + COMPILER_SHAREABLE + DemoResetCondition(false) + COMPILER_REST
    case Sender =>
      SENDER_GRANTS + [SENDER_DENIED, DENY_CORE] + DemoResetCondition(true)
    case Watcher =>
      WATCHER_GRANTS + [WATCHER_DENIED, DENY_CORE] + DemoResetCondition(true)
    case Reset =>
      [DemoNamespace("ReadWriteDemoNamespaceCore", Core), DemoNamespace("ReadWriteDemoNamespaceShareable", Shareable),
       DemoNamespace("ReadWriteDemoNamespaceAudit", Audit), DENY_DESTRUCTIVE]
  }

  // ---------- The boundaries, statement by statement ----------

  method GrantSharedDataPlane(role: Role)
    modifies role
    ensures role.policy == old(role.policy) + SharedDataPlane()
  {
    role.AddToPolicy(READ_WRITE_PRIVATE_CORE);
    role.AddToPolicy(READ_SHAREABLE);
    role.AddToPolicy(CHECK_VIEW_POINTER);
    role.AddToPolicy(AppendAudit({PutItem, GetItem, Query}));
    role.AddToPolicy(DENY_VIEW_WRITES);
  }

  /** The request-path and worker roles, both with the shared boundary first. */
  method ApplicationRoles() returns (api: Role, worker: Role)
    ensures fresh(api) && fresh(worker) && api != worker
    ensures api.policy == PolicyOf(Api) && worker.policy == PolicyOf(Worker)
  {
    api := new Role();
    worker := new Role();
    var roles := [api, worker];
    for i := 0 to 2
      invariant fresh(api) && fresh(worker) && api != worker && roles == [api, worker]
      invariant api.policy == if i == 0 then [] else SharedDataPlane()
      invariant worker.policy == if i < 2 then [] else SharedDataPlane()
    {
      GrantSharedDataPlane(roles[i]);
    }
    api.AddToPolicy(API_WRITES);
    api.AddToPolicy(ADVANCE_CLOCK);
    worker.AddToPolicy(WORKER_WRITES);
    worker.AddToPolicy(READ_CLOCK);
    worker.AddToPolicy(DenyClockWrites("DenyWorkerDemoClockWrites"));
  }

  method GrantDemoResetCondition(role: Role, denyOtherConditions: bool)
    modifies role
    ensures role.policy == old(role.policy) + DemoResetCondition(denyOtherConditions)
  {
    role.AddToPolicy(CHECK_RESET_LOCK);
    if denyOtherConditions {
      role.AddToPolicy(DENY_OTHER_CHECKS);
    }
  }

  method GrantCompilerCore(role: Role)
    modifies role
    ensures role.policy == old(role.policy) + COMPILER_CORE
  {
    role.AddToPolicy(READ_PRIVATE_CORE);
    role.AddToPolicy(CHECK_CASE);
    role.AddToPolicy(CHECK_FENCE);
    role.AddToPolicy(WRITE_FENCE);
  }

  method GrantCompilerShareable(role: Role)
    modifies role
    ensures role.policy == old(role.policy) + COMPILER_SHAREABLE
  {
    role.AddToPolicy(WRITE_VIEWS);
    role.AddToPolicy(READ_VIEWS_AND_ACTIONS);
    role.AddToPolicy(READ_CLOCK);
  }

  method GrantCompilerRest(role: Role)
    modifies role
    ensures role.policy == old(role.policy) + COMPILER_REST
  {
    role.AddToPolicy(AppendAudit({PutItem, GetItem}));
    role.AddToPolicy(DENY_CASE_WRITES);
    role.AddToPolicy(DenyClockWrites("DenyCompilerDemoClockWrites"));
  }

  method CompilerRole() returns (role: Role)
    ensures fresh(role) && role.policy == PolicyOf(Compiler)
  {
    role := new Role();
    GrantCompilerCore(role);
    GrantCompilerShareable(role);
    GrantDemoResetCondition(role, false);
    GrantCompilerRest(role);
  }

  method SenderRole() returns (role: Role)
    ensures fresh(role) && role.policy == PolicyOf(Sender)
  {
    role := new Role();
    role.AddToPolicy(READ_SHAREABLE);
    role.AddToPolicy(WRITE_EXECUTION);
    role.AddToPolicy(AppendAudit({PutItem}));
    assert role.policy == SENDER_GRANTS;
    role.AddToPolicy(SENDER_DENIED);
    role.AddToPolicy(DENY_CORE);
    assert role.policy == SENDER_GRANTS + [SENDER_DENIED, DENY_CORE];
    GrantDemoResetCondition(role, true);
  }

  method WatcherRole() returns (role: Role)
    ensures fresh(role) && role.policy == PolicyOf(Watcher)
  {
    role := new Role();
    role.AddToPolicy(READ_CASE);
    role.AddToPolicy(READ_CLOCK);
    role.AddToPolicy(WRITE_CASE);
    role.AddToPolicy(AppendAudit({PutItem}));
    assert role.policy == WATCHER_GRANTS;
    role.AddToPolicy(WATCHER_DENIED);
    role.AddToPolicy(DENY_CORE);
    assert role.policy == WATCHER_GRANTS + [WATCHER_DENIED, DENY_CORE];
    GrantDemoResetCondition(role, true);
  }

  method ResetRole() returns (role: Role)
    ensures fresh(role) && role.policy == PolicyOf(Reset)
  {
    hide DemoNamespace;
    role := new Role();
    var sids := ["ReadWriteDemoNamespaceCore", "ReadWriteDemoNamespaceShareable", "ReadWriteDemoNamespaceAudit"];
    var tables := [Core, Shareable, Audit];
    for i := 0 to 3
      invariant fresh(role)
      invariant role.policy == PolicyOf(Reset)[..i]
    {
      role.AddToPolicy(DemoNamespace(sids[i], tables[i]));
    }
    role.AddToPolicy(DENY_DESTRUCTIVE);
  }

  // ---------- What one statement decides on one key ----------

  lemma MatchesOneKey(s: Statement, r: Request, key: string)
    requires r.keys == {key}
    ensures Matches(s, r) <==>
            && NamesAction(s.actions, r.action)
            && (exists x :: x in s.resources && Covers(x, r.target))
            && (forall c :: c in s.conditions ==>
                  if c.LeadingKeys? then KeySatisfies(c.comparison, c.values, key) else r.enclosing == Some(c.operation))
  {
    assert OneKey(r, key) == r;
    forall c | c in s.conditions && c.LeadingKeys? ensures Satisfied(c, r) <==> KeySatisfies(c.comparison, c.values, key) {
      KeyTest(c, r, key);
    }
  }

  lemma OnTableOnlyMatches(sid: string, effect: Effect, actions: set<Action>, table: Table, r: Request)
    ensures Matches(OnTableOnly(sid, effect, actions, table), r) <==> r.action in actions && r.target == OnTable(table)
  {
    var s := OnTableOnly(sid, effect, actions, table);
    assert TableArn(table) in s.resources;
  }

  lemma OnKeysMatches(sid: string, effect: Effect, actions: set<Action>, table: Table, values: seq<string>, r: Request, key: string)
    requires r.keys == {key}
    ensures Matches(OnKeys(sid, effect, actions, table, values), r) <==>
            r.action in actions && r.target == OnTable(table) && KeySatisfies(StringLike, values, key)
    ensures Matches(InTransaction(OnKeys(sid, effect, actions, table, values)), r) <==>
            && r.action in actions && r.target == OnTable(table) && KeySatisfies(StringLike, values, key)
            && r.enclosing == Some(TRANSACT_WRITE)
  {
    var s := OnKeys(sid, effect, actions, table, values);
    MatchesOneKey(s, r, key);
    MatchesOneKey(InTransaction(s), r, key);
    assert TableArn(table) in s.resources && Keyed(effect, values) in s.conditions;
    assert Keyed(effect, values) in InTransaction(s).conditions;
    assert EnclosingOperation(TRANSACT_WRITE) in InTransaction(s).conditions;
  }

  /** Patterns over families hold of a well-formed key exactly when its family is named. */
  lemma FamiliesHold(families: seq<NamedFamily>, k: PartitionKey)
    ensures KeySatisfies(StringLike, Patterns(families), KeyText(k)) <==> k.Item? && k.family in families
  {
    var values := Patterns(families);
    forall i | 0 <= i < |families| ensures Glob(values[i], KeyText(k)) <==> k.Item? && k.family == families[i] {
      FamilyPatternMatches(families[i], k);
    }
    if k.Item? && k.family in families {
      var i :| 0 <= i < |families| && families[i] == k.family;
      assert values[i] in values;
    }
  }

  lemma ExactHolds(value: string, key: string)
    requires Literal(value)
    ensures KeySatisfies(StringLike, [value], key) <==> key == value
  {
    GlobExact(value, key);
    assert value in [value];
  }

  lemma DemoClockHolds(k: PartitionKey)
    ensures KeySatisfies(StringLike, [DEMO_CLOCK], KeyText(k)) <==> k == Clock("DEMO")
  {
    ExactHolds(DEMO_CLOCK, KeyText(k));
    DemoKeys(k);
  }

  // ---------- What one statement decides on one well-formed key ----------

  predicate InFamily(k: PartitionKey, families: seq<NamedFamily>) { k.Item? && k.family in families }

  function KeyRequest(action: Action, table: Table, k: PartitionKey, enclosing: Option<string>): Request {
    Request(action, OnTable(table), {KeyText(k)}, enclosing)
  }

  lemma WholeTable(s: Statement, actions: set<Action>, on: Table,
                   action: Action, table: Table, k: PartitionKey, enclosing: Option<string>)
    requires s == OnTableOnly(s.sid, s.effect, actions, on)
    ensures Matches(s, KeyRequest(action, table, k, enclosing)) <==> table == on && action in actions
  {
    OnTableOnlyMatches(s.sid, s.effect, actions, on, KeyRequest(action, table, k, enclosing));
  }

  lemma ByFamily(s: Statement, actions: set<Action>, on: Table, families: seq<NamedFamily>,
                 action: Action, table: Table, k: PartitionKey, enclosing: Option<string>)
    requires s == OnKeys(s.sid, s.effect, actions, on, Patterns(families))
    ensures Matches(s, KeyRequest(action, table, k, enclosing)) <==>
            table == on && action in actions && InFamily(k, families)
  {
    OnKeysMatches(s.sid, s.effect, actions, on, Patterns(families), KeyRequest(action, table, k, enclosing), KeyText(k));
    FamiliesHold(families, k);
  }

  lemma ByFamilyInTransaction(s: Statement, actions: set<Action>, on: Table, families: seq<NamedFamily>,
                              action: Action, table: Table, k: PartitionKey, enclosing: Option<string>)
    requires s == InTransaction(OnKeys(s.sid, s.effect, actions, on, Patterns(families)))
    ensures Matches(s, KeyRequest(action, table, k, enclosing)) <==>
            table == on && action in actions && InFamily(k, families) && enclosing == Some(TRANSACT_WRITE)
  {
    OnKeysMatches(s.sid, s.effect, actions, on, Patterns(families), KeyRequest(action, table, k, enclosing), KeyText(k));
    FamiliesHold(families, k);
  }

  lemma ByClock(s: Statement, actions: set<Action>,
                action: Action, table: Table, k: PartitionKey, enclosing: Option<string>)
    requires s == OnKeys(s.sid, s.effect, actions, Shareable, [DEMO_CLOCK])
    ensures Matches(s, KeyRequest(action, table, k, enclosing)) <==>
            table == Shareable && action in actions && k == Clock("DEMO")
  {
    OnKeysMatches(s.sid, s.effect, actions, Shareable, [DEMO_CLOCK], KeyRequest(action, table, k, enclosing), KeyText(k));
    DemoClockHolds(k);
  }

  lemma ByFamilyOrClock(s: Statement, families: seq<NamedFamily>,
                        action: Action, table: Table, k: PartitionKey, enclosing: Option<string>)
    requires s == OnKeys(s.sid, s.effect, WRITE_ACTIONS, Shareable, Patterns(families) + [DEMO_CLOCK])
    ensures Matches(s, KeyRequest(action, table, k, enclosing)) <==>
            table == Shareable && action in WRITE_ACTIONS && (InFamily(k, families) || k == Clock("DEMO"))
  {
    var values := Patterns(families) + [DEMO_CLOCK];
    OnKeysMatches(s.sid, s.effect, WRITE_ACTIONS, Shareable, values, KeyRequest(action, table, k, enclosing), KeyText(k));
    FamiliesHold(families, k);
    DemoClockHolds(k);
    assert forall v :: v in values <==> v in Patterns(families) || v in [DEMO_CLOCK];
  }

  /** The condition-only authority over the reset lock, and its deny half, on any set of keys. */
  lemma ResetLockMatches(r: Request)
    ensures Matches(CHECK_RESET_LOCK, r) <==>
            r.action == ConditionCheckItem && r.target == OnTable(Core) && r.keys <= {DEMO_CONTROL}
    ensures Matches(DENY_OTHER_CHECKS, r) <==>
            && r.action == ConditionCheckItem && (r.target == OnTable(Core) || r.target == OnIndex(Core))
            && !(r.keys <= {DEMO_CONTROL})
    ensures Matches(DENY_CORE, r) <==>
            r.action != ConditionCheckItem && (r.target == OnTable(Core) || r.target == OnIndex(Core))
  {
    assert TableArn(Core) in CHECK_RESET_LOCK.resources;
    assert CHECK_RESET_LOCK.conditions[0] in CHECK_RESET_LOCK.conditions;
    assert TableArn(Core) in DENY_OTHER_CHECKS.resources && BelowTable(Core) in DENY_OTHER_CHECKS.resources;
    assert DENY_OTHER_CHECKS.conditions[0] in DENY_OTHER_CHECKS.conditions;
    assert TableArn(Core) in DENY_CORE.resources && BelowTable(Core) in DENY_CORE.resources;
  }

  predicate Fires(s: Statement, effect: Effect, r: Request) { s.effect == effect && Matches(s, r) }

  lemma Listed(p: seq<Statement>, r: Request)
    requires |p| <= 5
    ensures Granted(p, r) <==>
            || (|p| > 0 && Fires(p[0], Allow, r)) || (|p| > 1 && Fires(p[1], Allow, r)) || (|p| > 2 && Fires(p[2], Allow, r))
            || (|p| > 3 && Fires(p[3], Allow, r)) || (|p| > 4 && Fires(p[4], Allow, r))
    ensures Denied(p, r) <==>
            || (|p| > 0 && Fires(p[0], Deny, r)) || (|p| > 1 && Fires(p[1], Deny, r)) || (|p| > 2 && Fires(p[2], Deny, r))
            || (|p| > 3 && Fires(p[3], Deny, r)) || (|p| > 4 && Fires(p[4], Deny, r))
  {
  }

  lemma Joined(p: seq<Statement>, q: seq<Statement>, r: Request)
    ensures Granted(p + q, r) <==> Granted(p, r) || Granted(q, r)
    ensures Denied(p + q, r) <==> Denied(p, r) || Denied(q, r)
  {
    assert forall s :: s in p + q <==> s in p || s in q;
  }

  // ---------- Decision tables ----------

  predicate Writes(action: Action) { action == PutItem || action == UpdateItem || action == DeleteItem }

  predicate Reads(action: Action) { action == GetItem || action == BatchGetItem || action == Query }

  /** What both application roles may do before their own grants. */
  predicate SharedMay(action: Action, table: Table, k: PartitionKey, enclosing: Option<string>) {
    match table
    case Core => Reads(action) || Writes(action) || action == ConditionCheckItem
    case Shareable =>
      || Reads(action)
      || (&& action == ConditionCheckItem && enclosing == Some("TransactWriteItems")
          && InFamily(k, [ViewFamily, ViewCurrentFamily]))
    case Audit => action == PutItem || action == GetItem || action == Query
  }

  predicate CompilerMay(action: Action, table: Table, k: PartitionKey, enclosing: Option<string>) {
    match table
    case Core =>
      || Reads(action)
      || ((action == PutItem || action == DeleteItem) && InFamily(k, [FenceFamily]))
      || (action == ConditionCheckItem && enclosing == Some("TransactWriteItems") && InFamily(k, [CaseFamily, FenceFamily]))
      || (action == ConditionCheckItem && k == Control("DEMO"))
    case Shareable =>
      || (action == PutItem && InFamily(k, [ViewFamily, ViewCurrentFamily]))
      || (Reads(action) && InFamily(k, [ViewFamily, ViewCurrentFamily, ActionFamily, ActionCurrentFamily]))
      || (action == GetItem && k == Clock("DEMO"))
    case Audit => action == PutItem || action == GetItem
  }

  /** The trust matrix. */
  predicate May(p: Principal, action: Action, table: Table, k: PartitionKey, enclosing: Option<string>) {
    match p
    case Api =>
      || SharedMay(action, table, k, enclosing)
      || (&& table == Shareable && (Writes(action) || action == ConditionCheckItem)
          && InFamily(k, [ActionFamily, ActionCurrentFamily, ExecutionFamily, CaseFamily]))
      || (table == Shareable && action == PutItem && k == Clock("DEMO"))
    case Worker =>
      || SharedMay(action, table, k, enclosing)
      || (&& table == Shareable && (Writes(action) || action == ConditionCheckItem)
          && InFamily(k, [ActionFamily, ActionCurrentFamily, ExecutionFamily, OutboundMessageFamily, CaseFamily]))
    case Compiler => CompilerMay(action, table, k, enclosing)
    case Sender => (
      match table
      case Core => action == ConditionCheckItem && k == Control("DEMO")
      case Shareable =>
        Reads(action) || ((action == PutItem || action == ConditionCheckItem) && InFamily(k, [ExecutionFamily]))
      case Audit => action == PutItem)
    case Watcher => (
      match table
      case Core => action == ConditionCheckItem && k == Control("DEMO")
      case Shareable =>
        || ((Reads(action) || action == PutItem || action == ConditionCheckItem) && InFamily(k, [CaseFamily]))
        || (action == GetItem && k == Clock("DEMO"))
      case Audit => action == PutItem)
    case Reset =>
      (Reads(action) || action in {PutItem, DeleteItem, BatchWriteItem, ConditionCheckItem}) && k.ns == "DEMO"
  }

  lemma SharedDecides(action: Action, table: Table, k: PartitionKey, enclosing: Option<string>)
    ensures Granted(SharedDataPlane(), KeyRequest(action, table, k, enclosing)) <==>
            SharedMay(action, table, k, enclosing)
    ensures Denied(SharedDataPlane(), KeyRequest(action, table, k, enclosing)) <==>
            table == Shareable && Writes(action) && InFamily(k, VIEW_FAMILIES)
  {
    hide Granted, Denied, Matches;
    WholeTable(READ_WRITE_PRIVATE_CORE, READ_ACTIONS + WRITE_ACTIONS + {ConditionCheckItem}, Core, action, table, k, enclosing);
    WholeTable(READ_SHAREABLE, READ_ACTIONS, Shareable, action, table, k, enclosing);
    ByFamilyInTransaction(CHECK_VIEW_POINTER, {ConditionCheckItem}, Shareable, VIEW_FAMILIES, action, table, k, enclosing);
    WholeTable(AppendAudit({PutItem, GetItem, Query}), {PutItem, GetItem, Query}, Audit, action, table, k, enclosing);
    ByFamily(DENY_VIEW_WRITES, WRITE_ACTIONS, Shareable, VIEW_FAMILIES, action, table, k, enclosing);
    Listed(SharedDataPlane(), KeyRequest(action, table, k, enclosing));
  }

  /** No family the application writes is a view family, and neither allow list meets its own deny list. */
  lemma FamiliesApart(k: PartitionKey)
    ensures !(InFamily(k, VIEW_FAMILIES) && (InFamily(k, API_FAMILIES) || InFamily(k, WORKER_FAMILIES)))
    ensures !(InFamily(k, [ExecutionFamily]) && InFamily(k, SENDER_FORBIDDEN))
    ensures !(InFamily(k, [CaseFamily]) && (InFamily(k, WATCHER_FORBIDDEN) || InFamily(k, [FenceFamily])))
  {
  }

  lemma ApiOwnDecides(action: Action, table: Table, k: PartitionKey, enclosing: Option<string>)
    ensures Granted(API_OWN, KeyRequest(action, table, k, enclosing)) <==>
            && table == Shareable
            && (|| ((Writes(action) || action == ConditionCheckItem) && InFamily(k, API_FAMILIES))
                || (action == PutItem && k == Clock("DEMO")))
    ensures !Denied(API_OWN, KeyRequest(action, table, k, enclosing))
  {
    ByFamily(API_WRITES, WRITE_ACTIONS + {ConditionCheckItem}, Shareable, API_FAMILIES, action, table, k, enclosing);
    ByClock(ADVANCE_CLOCK, {PutItem}, action, table, k, enclosing);
    Listed(API_OWN, KeyRequest(action, table, k, enclosing));
  }

  lemma ApiDecides(action: Action, table: Table, k: PartitionKey, enclosing: Option<string>)
    ensures Allowed(PolicyOf(Api), KeyRequest(action, table, k, enclosing)) <==> May(Api, action, table, k, enclosing)
  {
    hide Granted, Denied, Matches;
    SharedDecides(action, table, k, enclosing);
    ApiOwnDecides(action, table, k, enclosing);
    Joined(SharedDataPlane(), API_OWN, KeyRequest(action, table, k, enclosing));
    FamiliesApart(k);
  }

  lemma WorkerOwnDecides(action: Action, table: Table, k: PartitionKey, enclosing: Option<string>)
    ensures Granted(WORKER_OWN, KeyRequest(action, table, k, enclosing)) <==>
            && table == Shareable
            && (|| ((Writes(action) || action == ConditionCheckItem) && InFamily(k, WORKER_FAMILIES))
                || (action == GetItem && k == Clock("DEMO")))
    ensures Denied(WORKER_OWN, KeyRequest(action, table, k, enclosing)) <==>
            table == Shareable && (Writes(action) || action == ConditionCheckItem) && k == Clock("DEMO")
  {
    var deny := DenyClockWrites("DenyWorkerDemoClockWrites");
    ByFamily(WORKER_WRITES, WRITE_ACTIONS + {ConditionCheckItem}, Shareable, WORKER_FAMILIES, action, table, k, enclosing);
    ByClock(READ_CLOCK, {GetItem}, action, table, k, enclosing);
    ByClock(deny, WRITE_ACTIONS + {ConditionCheckItem}, action, table, k, enclosing);
    Listed(WORKER_OWN, KeyRequest(action, table, k, enclosing));
  }

  lemma WorkerDecides(action: Action, table: Table, k: PartitionKey, enclosing: Option<string>)
    ensures Allowed(PolicyOf(Worker), KeyRequest(action, table, k, enclosing)) <==> May(Worker, action, table, k, enclosing)
  {
    hide Granted, Denied, Matches;
    SharedDecides(action, table, k, enclosing);
    WorkerOwnDecides(action, table, k, enclosing);
    Joined(SharedDataPlane(), WORKER_OWN, KeyRequest(action, table, k, enclosing));
    FamiliesApart(k);
  }

  lemma ResetLockDecides(action: Action, table: Table, k: PartitionKey, enclosing: Option<string>)
    ensures Matches(CHECK_RESET_LOCK, KeyRequest(action, table, k, enclosing)) <==>
            action == ConditionCheckItem && table == Core && k == Control("DEMO")
    ensures Matches(DENY_OTHER_CHECKS, KeyRequest(action, table, k, enclosing)) <==>
            action == ConditionCheckItem && table == Core && k != Control("DEMO")
    ensures Matches(DENY_CORE, KeyRequest(action, table, k, enclosing)) <==>
            action != ConditionCheckItem && table == Core
  {
    ResetLockMatches(KeyRequest(action, table, k, enclosing));
    DemoKeys(k);
    assert KeyText(k) in {KeyText(k)};
  }

  lemma ResetConditionDecides(denyOthers: bool, action: Action, table: Table, k: PartitionKey, enclosing: Option<string>)
    ensures Granted(DemoResetCondition(denyOthers), KeyRequest(action, table, k, enclosing)) <==>
            action == ConditionCheckItem && table == Core && k == Control("DEMO")
    ensures Denied(DemoResetCondition(denyOthers), KeyRequest(action, table, k, enclosing)) <==>
            denyOthers && action == ConditionCheckItem && table == Core && k != Control("DEMO")
  {
    ResetLockDecides(action, table, k, enclosing);
    Listed(DemoResetCondition(denyOthers), KeyRequest(action, table, k, enclosing));
  }

  lemma CompilerCoreDecides(action: Action, table: Table, k: PartitionKey, enclosing: Option<string>)
    ensures Granted(COMPILER_CORE, KeyRequest(action, table, k, enclosing)) <==>
            && table == Core
            && (|| Reads(action)
                || ((action == PutItem || action == DeleteItem) && InFamily(k, [FenceFamily]))
                || (action == ConditionCheckItem && enclosing == Some(TRANSACT_WRITE) && InFamily(k, [CaseFamily, FenceFamily])))
    ensures !Denied(COMPILER_CORE, KeyRequest(action, table, k, enclosing))
  {
    hide Granted, Denied, Matches;
    WholeTable(READ_PRIVATE_CORE, READ_ACTIONS, Core, action, table, k, enclosing);
    ByFamilyInTransaction(CHECK_CASE, {ConditionCheckItem}, Core, [CaseFamily], action, table, k, enclosing);
    ByFamilyInTransaction(CHECK_FENCE, {ConditionCheckItem}, Core, [FenceFamily], action, table, k, enclosing);
    ByFamily(WRITE_FENCE, {PutItem, DeleteItem}, Core, [FenceFamily], action, table, k, enclosing);
    Listed(COMPILER_CORE, KeyRequest(action, table, k, enclosing));
  }

  lemma CompilerShareableDecides(action: Action, table: Table, k: PartitionKey, enclosing: Option<string>)
    ensures Granted(COMPILER_SHAREABLE, KeyRequest(action, table, k, enclosing)) <==>
            table == Shareable && CompilerMay(action, Shareable, k, enclosing)
    ensures !Denied(COMPILER_SHAREABLE, KeyRequest(action, table, k, enclosing))
  {
    ByFamily(WRITE_VIEWS, {PutItem, GetItem, BatchGetItem, Query}, Shareable, VIEW_FAMILIES, action, table, k, enclosing);
    ByFamily(READ_VIEWS_AND_ACTIONS, READ_ACTIONS, Shareable, COMPILER_READ_FAMILIES, action, table, k, enclosing);
    ByClock(READ_CLOCK, {GetItem}, action, table, k, enclosing);
    Listed(COMPILER_SHAREABLE, KeyRequest(action, table, k, enclosing));
  }

  lemma CompilerRestDecides(action: Action, table: Table, k: PartitionKey, enclosing: Option<string>)
    ensures Granted(COMPILER_REST, KeyRequest(action, table, k, enclosing)) <==>
            table == Audit && CompilerMay(action, Audit, k, enclosing)
    ensures Denied(COMPILER_REST, KeyRequest(action, table, k, enclosing)) <==>
            || (table == Core && Writes(action) && InFamily(k, [CaseFamily]))
            || (table == Shareable && (Writes(action) || action == ConditionCheckItem) && k == Clock("DEMO"))
  {
    hide Granted, Denied, Matches;
    var deny := DenyClockWrites("DenyCompilerDemoClockWrites");
    WholeTable(AppendAudit({PutItem, GetItem}), {PutItem, GetItem}, Audit, action, table, k, enclosing);
    ByFamily(DENY_CASE_WRITES, WRITE_ACTIONS, Core, [CaseFamily], action, table, k, enclosing);
    ByClock(deny, WRITE_ACTIONS + {ConditionCheckItem}, action, table, k, enclosing);
    Listed(COMPILER_REST, KeyRequest(action, table, k, enclosing));
  }

  lemma CompilerDecides(action: Action, table: Table, k: PartitionKey, enclosing: Option<string>)
    ensures Allowed(PolicyOf(Compiler), KeyRequest(action, table, k, enclosing)) <==>
            May(Compiler, action, table, k, enclosing)
  {
    hide Granted, Denied, Matches;
    var r, condition := KeyRequest(action, table, k, enclosing), DemoResetCondition(false);
    CompilerCoreDecides(action, table, k, enclosing);
    CompilerShareableDecides(action, table, k, enclosing);
    CompilerRestDecides(action, table, k, enclosing);
    ResetConditionDecides(false, action, table, k, enclosing);
    Joined(COMPILER_CORE, COMPILER_SHAREABLE, r);
    Joined(COMPILER_CORE + COMPILER_SHAREABLE, condition, r);
    Joined(COMPILER_CORE + COMPILER_SHAREABLE + condition, COMPILER_REST, r);
    FamiliesApart(k);
  }

  lemma SenderGrantsDecide(action: Action, table: Table, k: PartitionKey, enclosing: Option<string>)
    ensures Granted(SENDER_GRANTS, KeyRequest(action, table, k, enclosing)) <==>
            table != Core && May(Sender, action, table, k, enclosing)
    ensures !Denied(SENDER_GRANTS, KeyRequest(action, table, k, enclosing))
  {
    hide Granted, Denied, Matches;
    WholeTable(READ_SHAREABLE, READ_ACTIONS, Shareable, action, table, k, enclosing);
    ByFamily(WRITE_EXECUTION, {PutItem, ConditionCheckItem}, Shareable, [ExecutionFamily], action, table, k, enclosing);
    WholeTable(AppendAudit({PutItem}), {PutItem}, Audit, action, table, k, enclosing);
    Listed(SENDER_GRANTS, KeyRequest(action, table, k, enclosing));
  }

  lemma WatcherGrantsDecide(action: Action, table: Table, k: PartitionKey, enclosing: Option<string>)
    ensures Granted(WATCHER_GRANTS, KeyRequest(action, table, k, enclosing)) <==>
            table != Core && May(Watcher, action, table, k, enclosing)
    ensures !Denied(WATCHER_GRANTS, KeyRequest(action, table, k, enclosing))
  {
    hide Granted, Denied, Matches;
    ByFamily(READ_CASE, READ_ACTIONS, Shareable, [CaseFamily], action, table, k, enclosing);
    ByClock(READ_CLOCK, {GetItem}, action, table, k, enclosing);
    ByFamily(WRITE_CASE, {PutItem, ConditionCheckItem}, Shareable, [CaseFamily], action, table, k, enclosing);
    WholeTable(AppendAudit({PutItem}), {PutItem}, Audit, action, table, k, enclosing);
    Listed(WATCHER_GRANTS, KeyRequest(action, table, k, enclosing));
  }

  /** A deny list over families and the clock, followed by the Core deny. */
  lemma DeniesDecide(denied: Statement, families: seq<NamedFamily>,
                     action: Action, table: Table, k: PartitionKey, enclosing: Option<string>)
    requires denied == OnKeys(denied.sid, Deny, WRITE_ACTIONS, Shareable, Patterns(families) + [DEMO_CLOCK])
    ensures !Granted([denied, DENY_CORE], KeyRequest(action, table, k, enclosing))
    ensures Denied([denied, DENY_CORE], KeyRequest(action, table, k, enclosing)) <==>
            || (table == Shareable && Writes(action) && (InFamily(k, families) || k == Clock("DEMO")))
            || (table == Core && action != ConditionCheckItem)
  {
    ByFamilyOrClock(denied, families, action, table, k, enclosing);
    ResetLockDecides(action, table, k, enclosing);
    Listed([denied, DENY_CORE], KeyRequest(action, table, k, enclosing));
  }

  lemma SenderDecides(action: Action, table: Table, k: PartitionKey, enclosing: Option<string>)
    ensures Allowed(PolicyOf(Sender), KeyRequest(action, table, k, enclosing)) <==> May(Sender, action, table, k, enclosing)
  {
    hide Granted, Denied, Matches;
    var r, denies := KeyRequest(action, table, k, enclosing), [SENDER_DENIED, DENY_CORE];
    SenderGrantsDecide(action, table, k, enclosing);
    DeniesDecide(SENDER_DENIED, SENDER_FORBIDDEN, action, table, k, enclosing);
    ResetConditionDecides(true, action, table, k, enclosing);
    Joined(SENDER_GRANTS, denies, r);
    Joined(SENDER_GRANTS + denies, DemoResetCondition(true), r);
    FamiliesApart(k);
  }

  lemma WatcherDecides(action: Action, table: Table, k: PartitionKey, enclosing: Option<string>)
    ensures Allowed(PolicyOf(Watcher), KeyRequest(action, table, k, enclosing)) <==> May(Watcher, action, table, k, enclosing)
  {
    hide Granted, Denied, Matches;
    var r, denies := KeyRequest(action, table, k, enclosing), [WATCHER_DENIED, DENY_CORE];
    WatcherGrantsDecide(action, table, k, enclosing);
    DeniesDecide(WATCHER_DENIED, WATCHER_FORBIDDEN, action, table, k, enclosing);
    ResetConditionDecides(true, action, table, k, enclosing);
    Joined(WATCHER_GRANTS, denies, r);
    Joined(WATCHER_GRANTS + denies, DemoResetCondition(true), r);
    FamiliesApart(k);
  }

  /** The delimiter-aware grammar: exactly `NS#DEMO` and what starts `NS#DEMO#`. */
  lemma DemoNamespaceMeans(key: string)
    ensures KeySatisfies(StringLike, DEMO_NAMESPACE, key) <==> key == "NS#DEMO" || "NS#DEMO#" <= key
  {
    GlobExact(DEMO_CONTROL, key);
    GlobLiteral("NS#DEMO#", "*", key);
    assert "NS#DEMO#" + "*" == "NS#DEMO#*";
    if "NS#DEMO#" <= key { GlobAny(key[8..]); }
    assert DEMO_NAMESPACE[0] in DEMO_NAMESPACE && DEMO_NAMESPACE[1] in DEMO_NAMESPACE;
  }

  lemma UnderDemo(ns: Segment, rest: string)
    ensures "NS#DEMO#" <= "NS#" + (ns + "#" + rest) <==> ns == "DEMO"
  {
    var s := "NS#" + (ns + "#" + rest);
    assert s[3..] == ns + "#" + rest;
    if "NS#DEMO#" <= s {
      assert s == "NS#DEMO#" + s[8..];
      assert s[3..] == "DEMO" + "#" + s[8..];
      FirstSegment(ns, rest, "DEMO", s[8..]);
    }
    if ns == "DEMO" { assert s == "NS#DEMO#" + rest; }
  }

  lemma OneSeparator(ns: Segment)
    ensures !("NS#DEMO#" <= "NS#" + ns)
  {
    var s := "NS#" + ns;
    assert forall i :: 3 <= i < |s| ==> s[i] == ns[i - 3];
    assert "NS#DEMO#"[7] == '#';
  }

  /** No namespace that merely begins with `DEMO` is inside the grammar. */
  lemma DemoNamespaceExact(k: PartitionKey)
    ensures KeySatisfies(StringLike, DEMO_NAMESPACE, KeyText(k)) <==> k.ns == "DEMO"
  {
    DemoNamespaceMeans(KeyText(k));
    DemoKeys(k);
    match k {
      case Control(ns) => OneSeparator(ns);
      case Clock(ns) =>
        assert ns + "#CLOCK" == ns + "#" + "CLOCK";
        UnderDemo(ns, "CLOCK");
      case Item(ns, family, id) =>
        var f := FamilyName(family);
        assert ns + "#" + f + "#" + id == ns + "#" + (f + "#" + id);
        UnderDemo(ns, f + "#" + id);
    }
  }

  lemma ByDemoNamespace(sid: string, on: Table, action: Action, table: Table, k: PartitionKey, enclosing: Option<string>)
    ensures Matches(DemoNamespace(sid, on), KeyRequest(action, table, k, enclosing)) <==>
            table == on && action in RESET_ACTIONS && k.ns == "DEMO"
  {
    OnKeysMatches(sid, Allow, RESET_ACTIONS, on, DEMO_NAMESPACE, KeyRequest(action, table, k, enclosing), KeyText(k));
    DemoNamespaceExact(k);
  }

  lemma DestructiveMatches(r: Request)
    ensures Matches(DENY_DESTRUCTIVE, r) <==> r.action == DeleteTable || r.action == CreateTable || r.action == Scan
  {
    assert AnyResource in DENY_DESTRUCTIVE.resources;
  }

  lemma ResetDecides(action: Action, table: Table, k: PartitionKey, enclosing: Option<string>)
    ensures Allowed(PolicyOf(Reset), KeyRequest(action, table, k, enclosing)) <==> May(Reset, action, table, k, enclosing)
  {
    hide Granted, Denied, Matches;
    ByDemoNamespace("ReadWriteDemoNamespaceCore", Core, action, table, k, enclosing);
    ByDemoNamespace("ReadWriteDemoNamespaceShareable", Shareable, action, table, k, enclosing);
    ByDemoNamespace("ReadWriteDemoNamespaceAudit", Audit, action, table, k, enclosing);
    DestructiveMatches(KeyRequest(action, table, k, enclosing));
    Listed(PolicyOf(Reset), KeyRequest(action, table, k, enclosing));
  }

  /** Evaluating a role's whole policy on one well-formed key gives its row of the trust matrix. */
  lemma PolicyRefinesMatrix(p: Principal, action: Action, table: Table, k: PartitionKey, enclosing: Option<string>)
    ensures Allowed(PolicyOf(p), KeyRequest(action, table, k, enclosing)) <==> May(p, action, table, k, enclosing)
  {
    match p
    case Api => ApiDecides(action, table, k, enclosing);
    case Worker => WorkerDecides(action, table, k, enclosing);
    case Compiler => CompilerDecides(action, table, k, enclosing);
    case Sender => SenderDecides(action, table, k, enclosing);
    case Watcher => WatcherDecides(action, table, k, enclosing);
    case Reset => ResetDecides(action, table, k, enclosing);
  }

  // ---------- Any keys, any number of them ----------

  /** An allow names tables, never what is below them. */
  ghost predicate NamesTables(s: Statement) {
    s.effect == Allow ==> forall x :: x in s.resources ==> x.TableArn?
  }

  ghost predicate Disciplined(p: seq<Statement>) {
    forall s :: s in p ==> FailsClosed(s) && OneKeyTest(s) && NamesTables(s)
  }

  lemma SharedDisciplined()
    ensures Disciplined(SharedDataPlane())
  {
  }

  lemma ApplicationDisciplined()
    ensures Disciplined(API_OWN) && Disciplined(WORKER_OWN)
  {
    hide Patterns;
  }

  lemma CompilerDisciplined()
    ensures Disciplined(COMPILER_CORE)
  {
    hide Patterns;
  }

  lemma CompilerRestDisciplined()
    ensures Disciplined(COMPILER_SHAREABLE) && Disciplined(COMPILER_REST)
  {
    hide Patterns;
  }

  lemma ConditionsDisciplined(denyOtherConditions: bool)
    ensures Disciplined(DemoResetCondition(denyOtherConditions))
  {
  }

  lemma ResetDisciplined()
    ensures Disciplined(PolicyOf(Reset))
  {
    hide Patterns;
  }

  lemma SenderAndWatcherDisciplined()
    ensures Disciplined(SENDER_GRANTS) && Disciplined([SENDER_DENIED, DENY_CORE])
    ensures Disciplined(WATCHER_GRANTS) && Disciplined([WATCHER_DENIED, DENY_CORE])
  {
  }

  /** Every statement of every role allows by all keys and denies by any, and tests the keys once. */
  lemma RolesFailClosed(p: Principal)
    ensures Disciplined(PolicyOf(p))
  {
    hide FailsClosed, OneKeyTest, NamesTables;
    SharedDisciplined();
    ApplicationDisciplined();
    CompilerDisciplined();
    CompilerRestDisciplined();
    ConditionsDisciplined(true);
    ConditionsDisciplined(false);
    ResetDisciplined();
    SenderAndWatcherDisciplined();
  }

  /**
   Whatever a role may do to a batch it may do to each well-formed key in it, so every key of an
   allowed batch obeys the role's row of the matrix.
   */
  lemma BatchObeysMatrix(p: Principal, r: Request, k: PartitionKey)
    requires Allowed(PolicyOf(p), r) && r.target.OnTable? && KeyText(k) in r.keys
    ensures May(p, r.action, r.target.table, k, r.enclosing)
  {
    RolesFailClosed(p);
    NoKeyHides(PolicyOf(p), r, KeyText(k));
    PolicyRefinesMatrix(p, r.action, r.target.table, k, r.enclosing);
    assert OneKey(r, KeyText(k)) == KeyRequest(r.action, r.target.table, k, r.enclosing);
  }

  /** Only the compiler, by a put, and the demo reset inside its namespace ever write a view. */
  lemma ViewsHaveOneWriter(p: Principal, r: Request, k: PartitionKey)
    requires Allowed(PolicyOf(p), r) && r.target == OnTable(Shareable) && KeyText(k) in r.keys
    requires InFamily(k, [ViewFamily, ViewCurrentFamily]) && (Writes(r.action) || r.action == BatchWriteItem)
    ensures (p == Compiler && r.action == PutItem) || (p == Reset && k.ns == "DEMO" && r.action != UpdateItem)
  {
    hide Allowed, PolicyOf;
    BatchObeysMatrix(p, r, k);
    FamiliesApart(k);
  }

  /** Only the worker, and the demo reset inside its namespace, ever write a correlation locator. */
  lemma LocatorsHaveOneWriter(p: Principal, r: Request, k: PartitionKey)
    requires Allowed(PolicyOf(p), r) && r.target == OnTable(Shareable) && KeyText(k) in r.keys
    requires k.Item? && k.family == OutboundMessageFamily && (Writes(r.action) || r.action == BatchWriteItem)
    ensures (p == Worker && r.action != BatchWriteItem) || (p == Reset && k.ns == "DEMO" && r.action != UpdateItem)
  {
    hide Allowed, PolicyOf;
    BatchObeysMatrix(p, r, k);
  }

  /** Only the request path, by a put, and the demo reset ever move the demo clock. */
  lemma ClockHasOneAdvancer(p: Principal, r: Request)
    requires Allowed(PolicyOf(p), r) && r.target == OnTable(Shareable) && "NS#DEMO#CLOCK" in r.keys
    requires Writes(r.action) || r.action == BatchWriteItem
    ensures (p == Api && r.action == PutItem) || (p == Reset && r.action != UpdateItem)
  {
    hide Allowed, PolicyOf;
    DemoKeys(Clock("DEMO"));
    BatchObeysMatrix(p, r, Clock("DEMO"));
  }

  // ---------- The exact Core authority of each restricted role, on any keys ----------

  lemma OnTableOnlyBatch(s: Statement, actions: set<Action>, on: Table, r: Request)
    requires s == OnTableOnly(s.sid, s.effect, actions, on)
    ensures Matches(s, r) <==> r.action in actions && r.target == OnTable(on)
  {
    OnTableOnlyMatches(s.sid, s.effect, actions, on, r);
  }

  ghost predicate AllKeys(values: seq<string>, r: Request) {
    forall k :: k in r.keys ==> KeySatisfies(StringLike, values, k)
  }

  ghost predicate AnyKey(values: seq<string>, r: Request) {
    exists k :: k in r.keys && KeySatisfies(StringLike, values, k)
  }

  lemma OnKeysBatch(s: Statement, actions: set<Action>, on: Table, values: seq<string>, r: Request)
    requires s == OnKeys(s.sid, s.effect, actions, on, values)
    ensures Matches(s, r) <==>
            r.action in actions && r.target == OnTable(on) && if s.effect == Allow then AllKeys(values, r) else AnyKey(values, r)
    ensures Matches(InTransaction(s), r) <==> Matches(s, r) && r.enclosing == Some(TRANSACT_WRITE)
  {
    assert TableArn(on) in s.resources && Keyed(s.effect, values) in s.conditions;
    assert Keyed(s.effect, values) in InTransaction(s).conditions;
    assert EnclosingOperation(TRANSACT_WRITE) in InTransaction(s).conditions;
  }

  lemma CompilerCoreWriteStatements(r: Request)
    requires r.target == OnTable(Core) && Writes(r.action)
    ensures Granted(COMPILER_CORE, r) <==>
            (r.action == PutItem || r.action == DeleteItem) && AllKeys(Patterns([FenceFamily]), r)
    ensures !Denied(COMPILER_CORE, r)
    ensures !Granted(COMPILER_SHAREABLE, r) && !Denied(COMPILER_SHAREABLE, r)
  {
    hide Matches, Granted, Denied;
    OnTableOnlyBatch(READ_PRIVATE_CORE, READ_ACTIONS, Core, r);
    OnKeysBatch(OnKeys("ConditionCheckCaseVersion", Allow, {ConditionCheckItem}, Core, Patterns([CaseFamily])),
      {ConditionCheckItem}, Core, Patterns([CaseFamily]), r);
    OnKeysBatch(OnKeys("ConditionCheckSendFence", Allow, {ConditionCheckItem}, Core, Patterns([FenceFamily])),
      {ConditionCheckItem}, Core, Patterns([FenceFamily]), r);
    OnKeysBatch(WRITE_FENCE, {PutItem, DeleteItem}, Core, Patterns([FenceFamily]), r);
    Listed(COMPILER_CORE, r);
    OnKeysBatch(WRITE_VIEWS, {PutItem, GetItem, BatchGetItem, Query}, Shareable, Patterns(VIEW_FAMILIES), r);
    OnKeysBatch(READ_VIEWS_AND_ACTIONS, READ_ACTIONS, Shareable, Patterns(COMPILER_READ_FAMILIES), r);
    OnKeysBatch(READ_CLOCK, {GetItem}, Shareable, [DEMO_CLOCK], r);
    Listed(COMPILER_SHAREABLE, r);
  }

  lemma CompilerRestOnCore(r: Request)
    requires r.target == OnTable(Core) && Writes(r.action)
    ensures !Granted(COMPILER_REST, r) && (Denied(COMPILER_REST, r) <==> AnyKey(Patterns([CaseFamily]), r))
    ensures !Granted(DemoResetCondition(false), r) && !Denied(DemoResetCondition(false), r)
  {
    hide Matches, Granted, Denied;
    OnTableOnlyBatch(AppendAudit({PutItem, GetItem}), {PutItem, GetItem}, Audit, r);
    OnKeysBatch(DENY_CASE_WRITES, WRITE_ACTIONS, Core, Patterns([CaseFamily]), r);
    OnKeysBatch(DenyClockWrites("DenyCompilerDemoClockWrites"), WRITE_ACTIONS + {ConditionCheckItem}, Shareable, [DEMO_CLOCK], r);
    Listed(COMPILER_REST, r);
    ResetLockMatches(r);
    Listed(DemoResetCondition(false), r);
  }

  lemma OneFamily(f: NamedFamily, name: string, key: string)
    requires name == FamilyName(f)
    ensures KeySatisfies(StringLike, Patterns([f]), key) <==> "NS#" <= key && Occurs("#" + name + "#", key[3..])
  {
    var values := Patterns([f]);
    FamilyPatternMatches(f, Control(""));
    FamilyPatternMeans(name, key);
    assert values == [FamilyPatternOf(f)] && values[0] in values;
  }

  lemma CompilerWritesByPattern(r: Request)
    requires r.target == OnTable(Core) && Writes(r.action)
    ensures Allowed(PolicyOf(Compiler), r) <==>
            && (r.action == PutItem || r.action == DeleteItem)
            && AllKeys(Patterns([FenceFamily]), r) && !AnyKey(Patterns([CaseFamily]), r)
  {
    hide Granted, Denied, AllKeys, AnyKey;
    var condition := DemoResetCondition(false);
    CompilerCoreWriteStatements(r);
    CompilerRestOnCore(r);
    Joined(COMPILER_CORE, COMPILER_SHAREABLE, r);
    Joined(COMPILER_CORE + COMPILER_SHAREABLE, condition, r);
    Joined(COMPILER_CORE + COMPILER_SHAREABLE + condition, COMPILER_REST, r);
  }

  /**
   The compiler's whole Core write capability: a put or delete whose every key has the fence name
   and none of whose keys has the case name, whatever the shape of the keys.
   */
  lemma CompilerWritesFencesOnly(r: Request)
    requires r.target == OnTable(Core) && Writes(r.action)
    ensures Allowed(PolicyOf(Compiler), r) <==>
            && (r.action == PutItem || r.action == DeleteItem)
            && (forall k :: k in r.keys ==> "NS#" <= k && Occurs("#FENCE#", k[3..]) && !Occurs("#CASE#", k[3..]))
  {
    hide Allowed, KeySatisfies, Occurs, PolicyOf, Patterns;
    CompilerWritesByPattern(r);
    assert "#" + "FENCE" + "#" == "#FENCE#" && "#" + "CASE" + "#" == "#CASE#";
    forall k | k in r.keys
      ensures KeySatisfies(StringLike, Patterns([FenceFamily]), k) <==> "NS#" <= k && Occurs("#FENCE#", k[3..])
      ensures KeySatisfies(StringLike, Patterns([CaseFamily]), k) <==> "NS#" <= k && Occurs("#CASE#", k[3..])
    {
      OneFamily(FenceFamily, "FENCE", k);
      OneFamily(CaseFamily, "CASE", k);
    }
  }

  // ---------- The exact Shareable write authority of each role, on any keys ----------

  /** The text holds this name between separators after the namespace prefix, whatever else it holds. */
  ghost predicate InPartition(key: string, name: string) { "NS#" <= key && Occurs("#" + name + "#", key[3..]) }

  ghost predicate InPartitions(key: string, names: seq<string>) { exists name :: name in names && InPartition(key, name) }

  lemma PatternNames(f: NamedFamily, key: string)
    ensures Glob(FamilyPatternOf(f), key) <==> InPartition(key, FamilyName(f))
  {
    hide Glob;
    FamilyPatternMatches(f, Control(""));
    FamilyPatternMeans(FamilyName(f), key);
  }

  lemma PatternsName(families: seq<NamedFamily>, names: seq<string>, key: string)
    requires |names| == |families| && forall i :: 0 <= i < |names| ==> names[i] == FamilyName(families[i])
    ensures KeySatisfies(StringLike, Patterns(families), key) <==> InPartitions(key, names)
  {
    hide Glob, InPartition, FamilyPatternOf, FamilyName;
    var values := Patterns(families);
    forall i | 0 <= i < |names| ensures Glob(values[i], key) <==> InPartition(key, names[i]) { PatternNames(families[i], key); }
    if InPartitions(key, names) {
      var i :| 0 <= i < |names| && InPartition(key, names[i]);
      assert values[i] in values;
    }
  }

  lemma PatternsNameClock(families: seq<NamedFamily>, names: seq<string>, key: string)
    requires |names| == |families| && forall i :: 0 <= i < |names| ==> names[i] == FamilyName(families[i])
    ensures KeySatisfies(StringLike, Patterns(families) + [DEMO_CLOCK], key) <==> InPartitions(key, names) || key == "NS#DEMO#CLOCK"
  {
    hide Glob, InPartitions;
    PatternsName(families, names, key);
    ExactHolds(DEMO_CLOCK, key);
    var values := Patterns(families) + [DEMO_CLOCK];
    assert forall v :: v in values <==> v in Patterns(families) || v in [DEMO_CLOCK];
  }

  lemma NamesOfFamilies()
    ensures FamilyName(ViewFamily) == "VIEW" && FamilyName(ViewCurrentFamily) == "VIEW_CURRENT"
    ensures FamilyName(ActionFamily) == "ACTION" && FamilyName(ActionCurrentFamily) == "ACTION_CURRENT"
    ensures FamilyName(ExecutionFamily) == "EXECUTION" && FamilyName(OutboundMessageFamily) == "OUTBOUND_MESSAGE"
    ensures FamilyName(CaseFamily) == "CASE"
  {
  }

  lemma ClockIsNoView()
    ensures !InPartitions("NS#DEMO#CLOCK", ["VIEW", "VIEW_CURRENT"])
  {
    var rest := "NS#DEMO#CLOCK"[3..];
    assert rest == "DEMO#CLOCK";
    NoDelimitedName(rest, "VIEW");
    NoDelimitedName(rest, "VIEW_CURRENT");
  }

  lemma SharedOnShareable(r: Request)
    requires r.target == OnTable(Shareable) && Writes(r.action)
    ensures !Granted(SharedDataPlane(), r) && (Denied(SharedDataPlane(), r) <==> AnyKey(Patterns(VIEW_FAMILIES), r))
  {
    hide Matches, Granted, Denied, AllKeys, AnyKey, Patterns;
    OnTableOnlyBatch(READ_WRITE_PRIVATE_CORE, READ_ACTIONS + WRITE_ACTIONS + {ConditionCheckItem}, Core, r);
    OnTableOnlyBatch(READ_SHAREABLE, READ_ACTIONS, Shareable, r);
    OnKeysBatch(OnKeys("ConditionCheckCurrentViewPointer", Allow, {ConditionCheckItem}, Shareable, Patterns(VIEW_FAMILIES)),
      {ConditionCheckItem}, Shareable, Patterns(VIEW_FAMILIES), r);
    OnTableOnlyBatch(AppendAudit({PutItem, GetItem, Query}), {PutItem, GetItem, Query}, Audit, r);
    OnKeysBatch(DENY_VIEW_WRITES, WRITE_ACTIONS, Shareable, Patterns(VIEW_FAMILIES), r);
    Listed(SharedDataPlane(), r);
  }

  lemma ApiByPattern(r: Request)
    requires r.target == OnTable(Shareable) && Writes(r.action)
    ensures Allowed(PolicyOf(Api), r) <==>
            && (AllKeys(Patterns(API_FAMILIES), r) || (r.action == PutItem && AllKeys([DEMO_CLOCK], r)))
            && !AnyKey(Patterns(VIEW_FAMILIES), r)
  {
    hide Matches, Granted, Denied, AllKeys, AnyKey, Patterns;
    SharedOnShareable(r);
    OnKeysBatch(API_WRITES, WRITE_ACTIONS + {ConditionCheckItem}, Shareable, Patterns(API_FAMILIES), r);
    OnKeysBatch(ADVANCE_CLOCK, {PutItem}, Shareable, [DEMO_CLOCK], r);
    Listed(API_OWN, r);
    Joined(SharedDataPlane(), API_OWN, r);
  }

  lemma WorkerByPattern(r: Request)
    requires r.target == OnTable(Shareable) && Writes(r.action)
    ensures Allowed(PolicyOf(Worker), r) <==>
            AllKeys(Patterns(WORKER_FAMILIES), r) && !AnyKey(Patterns(VIEW_FAMILIES), r) && !AnyKey([DEMO_CLOCK], r)
  {
    hide Matches, Granted, Denied, AllKeys, AnyKey, Patterns;
    SharedOnShareable(r);
    OnKeysBatch(WORKER_WRITES, WRITE_ACTIONS + {ConditionCheckItem}, Shareable, Patterns(WORKER_FAMILIES), r);
    OnKeysBatch(READ_CLOCK, {GetItem}, Shareable, [DEMO_CLOCK], r);
    OnKeysBatch(DenyClockWrites("DenyWorkerDemoClockWrites"), WRITE_ACTIONS + {ConditionCheckItem}, Shareable, [DEMO_CLOCK], r);
    Listed(WORKER_OWN, r);
    Joined(SharedDataPlane(), WORKER_OWN, r);
  }

  lemma CoreStatementsMissShareable(r: Request, denyOthers: bool)
    requires r.target == OnTable(Shareable)
    ensures !Granted(DemoResetCondition(denyOthers), r) && !Denied(DemoResetCondition(denyOthers), r) && !Matches(DENY_CORE, r)
  {
    hide Matches, Granted, Denied;
    ResetLockMatches(r);
    Listed(DemoResetCondition(denyOthers), r);
  }

  lemma SenderByPattern(r: Request)
    requires r.target == OnTable(Shareable) && Writes(r.action)
    ensures Allowed(PolicyOf(Sender), r) <==>
            && r.action == PutItem && AllKeys(Patterns([ExecutionFamily]), r)
            && !AnyKey(Patterns(SENDER_FORBIDDEN) + [DEMO_CLOCK], r)
  {
    hide Matches, Granted, Denied, AllKeys, AnyKey, Patterns;
    var denies := [SENDER_DENIED, DENY_CORE];
    OnTableOnlyBatch(READ_SHAREABLE, READ_ACTIONS, Shareable, r);
    OnKeysBatch(WRITE_EXECUTION, {PutItem, ConditionCheckItem}, Shareable, Patterns([ExecutionFamily]), r);
    OnTableOnlyBatch(AppendAudit({PutItem}), {PutItem}, Audit, r);
    Listed(SENDER_GRANTS, r);
    OnKeysBatch(SENDER_DENIED, WRITE_ACTIONS, Shareable, Patterns(SENDER_FORBIDDEN) + [DEMO_CLOCK], r);
    CoreStatementsMissShareable(r, true);
    Listed(denies, r);
    Joined(SENDER_GRANTS, denies, r);
    Joined(SENDER_GRANTS + denies, DemoResetCondition(true), r);
  }

  lemma WatcherByPattern(r: Request)
    requires r.target == OnTable(Shareable) && Writes(r.action)
    ensures Allowed(PolicyOf(Watcher), r) <==>
            && r.action == PutItem && AllKeys(Patterns([CaseFamily]), r)
            && !AnyKey(Patterns(WATCHER_FORBIDDEN) + [DEMO_CLOCK], r)
  {
    hide Matches, Granted, Denied, AllKeys, AnyKey, Patterns;
    var denies := [WATCHER_DENIED, DENY_CORE];
    OnKeysBatch(READ_CASE, READ_ACTIONS, Shareable, Patterns([CaseFamily]), r);
    OnKeysBatch(READ_CLOCK, {GetItem}, Shareable, [DEMO_CLOCK], r);
    OnKeysBatch(WRITE_CASE, {PutItem, ConditionCheckItem}, Shareable, Patterns([CaseFamily]), r);
    OnTableOnlyBatch(AppendAudit({PutItem}), {PutItem}, Audit, r);
    Listed(WATCHER_GRANTS, r);
    OnKeysBatch(WATCHER_DENIED, WRITE_ACTIONS, Shareable, Patterns(WATCHER_FORBIDDEN) + [DEMO_CLOCK], r);
    CoreStatementsMissShareable(r, true);
    Listed(denies, r);
    Joined(WATCHER_GRANTS, denies, r);
    Joined(WATCHER_GRANTS + denies, DemoResetCondition(true), r);
  }

  lemma CompilerCoreMissesShareable(r: Request)
    requires r.target == OnTable(Shareable)
    ensures !Granted(COMPILER_CORE, r) && !Denied(COMPILER_CORE, r)
  {
    hide Matches, Granted, Denied, AllKeys, AnyKey, Patterns;
    OnTableOnlyBatch(READ_PRIVATE_CORE, READ_ACTIONS, Core, r);
    OnKeysBatch(OnKeys("ConditionCheckCaseVersion", Allow, {ConditionCheckItem}, Core, Patterns([CaseFamily])),
      {ConditionCheckItem}, Core, Patterns([CaseFamily]), r);
    OnKeysBatch(OnKeys("ConditionCheckSendFence", Allow, {ConditionCheckItem}, Core, Patterns([FenceFamily])),
      {ConditionCheckItem}, Core, Patterns([FenceFamily]), r);
    OnKeysBatch(WRITE_FENCE, {PutItem, DeleteItem}, Core, Patterns([FenceFamily]), r);
    Listed(COMPILER_CORE, r);
  }

  lemma CompilerByPattern(r: Request)
    requires r.target == OnTable(Shareable) && Writes(r.action)
    ensures Allowed(PolicyOf(Compiler), r) <==>
            r.action == PutItem && AllKeys(Patterns(VIEW_FAMILIES), r) && !AnyKey([DEMO_CLOCK], r)
  {
    hide Matches, Granted, Denied, AllKeys, AnyKey, Patterns;
    var condition := DemoResetCondition(false);
    CompilerCoreMissesShareable(r);
    OnKeysBatch(WRITE_VIEWS, {PutItem, GetItem, BatchGetItem, Query}, Shareable, Patterns(VIEW_FAMILIES), r);
    OnKeysBatch(READ_VIEWS_AND_ACTIONS, READ_ACTIONS, Shareable, Patterns(COMPILER_READ_FAMILIES), r);
    OnKeysBatch(READ_CLOCK, {GetItem}, Shareable, [DEMO_CLOCK], r);
    Listed(COMPILER_SHAREABLE, r);
    CoreStatementsMissShareable(r, false);
    OnTableOnlyBatch(AppendAudit({PutItem, GetItem}), {PutItem, GetItem}, Audit, r);
    OnKeysBatch(DENY_CASE_WRITES, WRITE_ACTIONS, Core, Patterns([CaseFamily]), r);
    OnKeysBatch(DenyClockWrites("DenyCompilerDemoClockWrites"), WRITE_ACTIONS + {ConditionCheckItem}, Shareable, [DEMO_CLOCK], r);
    Listed(COMPILER_REST, r);
    Joined(COMPILER_CORE, COMPILER_SHAREABLE, r);
    Joined(COMPILER_CORE + COMPILER_SHAREABLE, condition, r);
    Joined(COMPILER_CORE + COMPILER_SHAREABLE + condition, COMPILER_REST, r);
  }

  /** Every key of the request is in one of the partitions, and none is in a forbidden one. */
  ghost predicate KeysIn(r: Request, names: seq<string>, forbidden: seq<string>) {
    forall k :: k in r.keys ==> InPartitions(k, names) && !InPartitions(k, forbidden)
  }

  /**
   What the request path may write in the Shareable zone, exactly, for keys of any shape and number:
   its four partitions and no view, or, by a put, the demo clock alone.
   */
  lemma ApiWritesExactly(r: Request)
    requires r.target == OnTable(Shareable) && Writes(r.action)
    ensures Allowed(PolicyOf(Api), r) <==>
            || KeysIn(r, ["ACTION", "ACTION_CURRENT", "EXECUTION", "CASE"], ["VIEW", "VIEW_CURRENT"])
            || (r.action == PutItem && r.keys <= {"NS#DEMO#CLOCK"})
  {
    hide Allowed, KeySatisfies, PolicyOf, Patterns, InPartitions, FamilyName;
    ApiByPattern(r);
    NamesOfFamilies();
    forall k | k in r.keys
      ensures KeySatisfies(StringLike, Patterns(API_FAMILIES), k) <==> InPartitions(k, ["ACTION", "ACTION_CURRENT", "EXECUTION", "CASE"])
      ensures KeySatisfies(StringLike, Patterns(VIEW_FAMILIES), k) <==> InPartitions(k, ["VIEW", "VIEW_CURRENT"])
      ensures KeySatisfies(StringLike, [DEMO_CLOCK], k) <==> k == "NS#DEMO#CLOCK"
    {
      PatternsName(API_FAMILIES, ["ACTION", "ACTION_CURRENT", "EXECUTION", "CASE"], k);
      PatternsName(VIEW_FAMILIES, ["VIEW", "VIEW_CURRENT"], k);
      ExactHolds(DEMO_CLOCK, k);
    }
    ClockIsNoView();
  }

  /** The worker's: the same partitions and the correlation locators, and never the clock. */
  lemma WorkerWritesExactly(r: Request)
    requires r.target == OnTable(Shareable) && Writes(r.action)
    ensures Allowed(PolicyOf(Worker), r) <==>
            && KeysIn(r, ["ACTION", "ACTION_CURRENT", "EXECUTION", "OUTBOUND_MESSAGE", "CASE"], ["VIEW", "VIEW_CURRENT"])
            && "NS#DEMO#CLOCK" !in r.keys
  {
    hide Allowed, KeySatisfies, PolicyOf, Patterns, InPartitions, FamilyName;
    WorkerByPattern(r);
    NamesOfFamilies();
    forall k | k in r.keys
      ensures KeySatisfies(StringLike, Patterns(WORKER_FAMILIES), k) <==> InPartitions(k, ["ACTION", "ACTION_CURRENT", "EXECUTION", "OUTBOUND_MESSAGE", "CASE"])
      ensures KeySatisfies(StringLike, Patterns(VIEW_FAMILIES), k) <==> InPartitions(k, ["VIEW", "VIEW_CURRENT"])
      ensures KeySatisfies(StringLike, [DEMO_CLOCK], k) <==> k == "NS#DEMO#CLOCK"
    {
      PatternsName(WORKER_FAMILIES, ["ACTION", "ACTION_CURRENT", "EXECUTION", "OUTBOUND_MESSAGE", "CASE"], k);
      PatternsName(VIEW_FAMILIES, ["VIEW", "VIEW_CURRENT"], k);
      ExactHolds(DEMO_CLOCK, k);
    }
  }

  /** The sender's: a put of executions, and nothing a proposal, approval, locator, view or case is kept in. */
  lemma SenderWritesExactly(r: Request)
    requires r.target == OnTable(Shareable) && Writes(r.action)
    ensures Allowed(PolicyOf(Sender), r) <==>
            && r.action == PutItem && "NS#DEMO#CLOCK" !in r.keys
            && KeysIn(r, ["EXECUTION"], ["ACTION", "ACTION_CURRENT", "OUTBOUND_MESSAGE", "VIEW", "VIEW_CURRENT", "CASE"])
  {
    hide Allowed, KeySatisfies, PolicyOf, Patterns, InPartitions, FamilyName;
    SenderByPattern(r);
    NamesOfFamilies();
    var denied := ["ACTION", "ACTION_CURRENT", "OUTBOUND_MESSAGE", "VIEW", "VIEW_CURRENT", "CASE"];
    forall k | k in r.keys
      ensures KeySatisfies(StringLike, Patterns([ExecutionFamily]), k) <==> InPartitions(k, ["EXECUTION"])
      ensures KeySatisfies(StringLike, Patterns(SENDER_FORBIDDEN) + [DEMO_CLOCK], k) <==> InPartitions(k, denied) || k == "NS#DEMO#CLOCK"
    {
      PatternsName([ExecutionFamily], ["EXECUTION"], k);
      PatternsNameClock(SENDER_FORBIDDEN, denied, k);
    }
  }

  /** The watcher's: a put of cases, and nothing else. */
  lemma WatcherWritesExactly(r: Request)
    requires r.target == OnTable(Shareable) && Writes(r.action)
    ensures Allowed(PolicyOf(Watcher), r) <==>
            && r.action == PutItem && "NS#DEMO#CLOCK" !in r.keys
            && KeysIn(r, ["CASE"], ["ACTION", "ACTION_CURRENT", "EXECUTION", "OUTBOUND_MESSAGE", "VIEW", "VIEW_CURRENT"])
  {
    hide Allowed, KeySatisfies, PolicyOf, Patterns, InPartitions, FamilyName;
    WatcherByPattern(r);
    NamesOfFamilies();
    var denied := ["ACTION", "ACTION_CURRENT", "EXECUTION", "OUTBOUND_MESSAGE", "VIEW", "VIEW_CURRENT"];
    forall k | k in r.keys
      ensures KeySatisfies(StringLike, Patterns([CaseFamily]), k) <==> InPartitions(k, ["CASE"])
      ensures KeySatisfies(StringLike, Patterns(WATCHER_FORBIDDEN) + [DEMO_CLOCK], k) <==> InPartitions(k, denied) || k == "NS#DEMO#CLOCK"
    {
      PatternsName([CaseFamily], ["CASE"], k);
      PatternsNameClock(WATCHER_FORBIDDEN, denied, k);
    }
  }

  /** The compiler's: a put of views, and never the clock. */
  lemma CompilerWritesViewsOnly(r: Request)
    requires r.target == OnTable(Shareable) && Writes(r.action)
    ensures Allowed(PolicyOf(Compiler), r) <==>
            r.action == PutItem && KeysIn(r, ["VIEW", "VIEW_CURRENT"], []) && "NS#DEMO#CLOCK" !in r.keys
  {
    hide Allowed, KeySatisfies, PolicyOf, Patterns, InPartition, FamilyName;
    CompilerByPattern(r);
    NamesOfFamilies();
    forall k | k in r.keys
      ensures KeySatisfies(StringLike, Patterns(VIEW_FAMILIES), k) <==> InPartitions(k, ["VIEW", "VIEW_CURRENT"])
      ensures KeySatisfies(StringLike, [DEMO_CLOCK], k) <==> k == "NS#DEMO#CLOCK"
    {
      PatternsName(VIEW_FAMILIES, ["VIEW", "VIEW_CURRENT"], k);
      ExactHolds(DEMO_CLOCK, k);
    }
  }

  lemma CompilerReadsByPattern(r: Request)
    requires r.target == OnTable(Shareable) && Reads(r.action)
    ensures Allowed(PolicyOf(Compiler), r) <==>
            || AllKeys(Patterns(VIEW_FAMILIES), r) || AllKeys(Patterns(COMPILER_READ_FAMILIES), r)
            || (r.action == GetItem && AllKeys([DEMO_CLOCK], r))
  {
    hide Matches, Granted, Denied, AllKeys, AnyKey, Patterns;
    var condition := DemoResetCondition(false);
    CompilerCoreMissesShareable(r);
    OnKeysBatch(WRITE_VIEWS, {PutItem, GetItem, BatchGetItem, Query}, Shareable, Patterns(VIEW_FAMILIES), r);
    OnKeysBatch(READ_VIEWS_AND_ACTIONS, READ_ACTIONS, Shareable, Patterns(COMPILER_READ_FAMILIES), r);
    OnKeysBatch(READ_CLOCK, {GetItem}, Shareable, [DEMO_CLOCK], r);
    Listed(COMPILER_SHAREABLE, r);
    CoreStatementsMissShareable(r, false);
    OnTableOnlyBatch(AppendAudit({PutItem, GetItem}), {PutItem, GetItem}, Audit, r);
    OnKeysBatch(DENY_CASE_WRITES, WRITE_ACTIONS, Core, Patterns([CaseFamily]), r);
    OnKeysBatch(DenyClockWrites("DenyCompilerDemoClockWrites"), WRITE_ACTIONS + {ConditionCheckItem}, Shareable, [DEMO_CLOCK], r);
    Listed(COMPILER_REST, r);
    Joined(COMPILER_CORE, COMPILER_SHAREABLE, r);
    Joined(COMPILER_CORE + COMPILER_SHAREABLE, condition, r);
    Joined(COMPILER_CORE + COMPILER_SHAREABLE + condition, COMPILER_REST, r);
  }

  lemma WiderPartitions(k: string)
    ensures InPartitions(k, ["VIEW", "VIEW_CURRENT"]) ==> InPartitions(k, ["VIEW", "VIEW_CURRENT", "ACTION", "ACTION_CURRENT"])
  {
  }

  /** What the compiler may read in the Shareable zone: views and actions, together or apart, or the clock alone. */
  lemma CompilerReadsExactly(r: Request)
    requires r.target == OnTable(Shareable) && Reads(r.action)
    ensures Allowed(PolicyOf(Compiler), r) <==>
            || KeysIn(r, ["VIEW", "VIEW_CURRENT", "ACTION", "ACTION_CURRENT"], [])
            || (r.action == GetItem && r.keys <= {"NS#DEMO#CLOCK"})
  {
    hide Allowed, KeySatisfies, PolicyOf, Patterns, InPartition, FamilyName;
    CompilerReadsByPattern(r);
    NamesOfFamilies();
    forall k | k in r.keys
      ensures KeySatisfies(StringLike, Patterns(VIEW_FAMILIES), k) ==> InPartitions(k, ["VIEW", "VIEW_CURRENT", "ACTION", "ACTION_CURRENT"])
      ensures KeySatisfies(StringLike, Patterns(COMPILER_READ_FAMILIES), k) <==>
              InPartitions(k, ["VIEW", "VIEW_CURRENT", "ACTION", "ACTION_CURRENT"])
      ensures KeySatisfies(StringLike, [DEMO_CLOCK], k) <==> k == "NS#DEMO#CLOCK"
    {
      PatternsName(VIEW_FAMILIES, ["VIEW", "VIEW_CURRENT"], k);
      PatternsName(COMPILER_READ_FAMILIES, ["VIEW", "VIEW_CURRENT", "ACTION", "ACTION_CURRENT"], k);
      WiderPartitions(k);
      ExactHolds(DEMO_CLOCK, k);
    }
    assert forall k :: !InPartitions(k, []);
  }

  lemma ViewsAreForbidden(key: string, forbidden: seq<string>)
    requires InPartitions(key, ["VIEW", "VIEW_CURRENT"]) && "VIEW" in forbidden && "VIEW_CURRENT" in forbidden
    ensures InPartitions(key, forbidden)
  {
  }

  /** One key that names a view, well-formed or not and whatever the others are, and the write is refused. */
  lemma ViewKeyRefusesBatch(p: Principal, r: Request, key: string)
    requires p == Api || p == Worker || p == Sender || p == Watcher
    requires r.target == OnTable(Shareable) && Writes(r.action)
    requires key in r.keys && InPartitions(key, ["VIEW", "VIEW_CURRENT"])
    ensures !Allowed(PolicyOf(p), r)
  {
    hide Allowed, PolicyOf, InPartitions;
    match p {
      case Api =>
        ApiWritesExactly(r);
        ClockIsNoView();
      case Worker => WorkerWritesExactly(r);
      case Sender =>
        SenderWritesExactly(r);
        ViewsAreForbidden(key, ["ACTION", "ACTION_CURRENT", "OUTBOUND_MESSAGE", "VIEW", "VIEW_CURRENT", "CASE"]);
      case Watcher =>
        WatcherWritesExactly(r);
        ViewsAreForbidden(key, ["ACTION", "ACTION_CURRENT", "EXECUTION", "OUTBOUND_MESSAGE", "VIEW", "VIEW_CURRENT"]);
    }
  }

  lemma GrantsMissCore(r: Request)
    requires r.target.table == Core
    ensures !Granted(SENDER_GRANTS, r) && !Denied(SENDER_GRANTS, r)
    ensures !Granted(WATCHER_GRANTS, r) && !Denied(WATCHER_GRANTS, r)
    ensures !Matches(SENDER_DENIED, r) && !Matches(WATCHER_DENIED, r)
  {
  }

  /** The sender and the watcher reach Core only to condition-check the demo reset lock. */
  lemma CoreIsConditionOnly(p: Principal, r: Request)
    requires (p == Sender || p == Watcher) && r.target.table == Core
    ensures Allowed(PolicyOf(p), r) <==>
            r.action == ConditionCheckItem && r.target == OnTable(Core) && r.keys <= {"NS#DEMO"}
  {
    hide Granted, Denied, Matches;
    var grants := if p == Sender then SENDER_GRANTS else WATCHER_GRANTS;
    var denies := [if p == Sender then SENDER_DENIED else WATCHER_DENIED, DENY_CORE];
    GrantsMissCore(r);
    ResetLockMatches(r);
    Listed(denies, r);
    Listed(DemoResetCondition(true), r);
    Joined(grants, denies, r);
    Joined(grants + denies, DemoResetCondition(true), r);
  }

  lemma ResetGrantMatches(sid: string, on: Table, table: Table, r: Request)
    requires r.target == OnTable(table)
    ensures Matches(DemoNamespace(sid, on), r) <==> on == table && r.action in RESET_ACTIONS && AllKeys(DEMO_NAMESPACE, r)
  {
    OnKeysBatch(DemoNamespace(sid, on), RESET_ACTIONS, on, DEMO_NAMESPACE, r);
  }

  lemma ResetByPattern(table: Table, r: Request)
    requires r.target == OnTable(table)
    ensures Allowed(PolicyOf(Reset), r) <==> r.action in RESET_ACTIONS && AllKeys(DEMO_NAMESPACE, r)
  {
    hide Granted, Denied, Matches, AllKeys;
    ResetGrantMatches("ReadWriteDemoNamespaceCore", Core, table, r);
    ResetGrantMatches("ReadWriteDemoNamespaceShareable", Shareable, table, r);
    ResetGrantMatches("ReadWriteDemoNamespaceAudit", Audit, table, r);
    DestructiveMatches(r);
    Listed(PolicyOf(Reset), r);
  }

  /**
   The reset role is confined to one namespace on every table: exactly `NS#DEMO` and the keys that
   start with `NS#DEMO#`.
   */
  lemma ResetConfined(r: Request)
    requires r.target.OnTable?
    ensures Allowed(PolicyOf(Reset), r) <==>
            && (Reads(r.action) || r.action in {PutItem, DeleteItem, BatchWriteItem, ConditionCheckItem})
            && (forall k :: k in r.keys ==> k == "NS#DEMO" || "NS#DEMO#" <= k)
  {
    hide Allowed, KeySatisfies;
    ResetByPattern(r.target.table, r);
    forall k | k in r.keys
      ensures KeySatisfies(StringLike, DEMO_NAMESPACE, k) <==> k == DEMO_CONTROL || "NS#DEMO#" <= k
    {
      DemoNamespaceMeans(k);
    }
  }

  /** No grant reaches an index: every allow names a table's own resource. */
  lemma IndexesAreClosed(p: Principal, r: Request)
    requires r.target.OnIndex?
    ensures !Allowed(PolicyOf(p), r)
  {
    hide PolicyOf;
    RolesFailClosed(p);
  }

  lemma KeyKinds(c: PartitionKey, f: PartitionKey, r: Request)
    requires InFamily(c, [CaseFamily]) && InFamily(f, [FenceFamily]) && r.keys == {KeyText(c), KeyText(f)}
    ensures !AllKeys(Patterns([CaseFamily]), r) && !AllKeys(Patterns([FenceFamily]), r) && !(r.keys <= {DEMO_CONTROL})
  {
    FamiliesHold([CaseFamily], f);
    FamiliesHold([FenceFamily], c);
    DemoKeys(c);
    assert KeyText(c) in r.keys && KeyText(f) in r.keys;
  }

  lemma CompilerCheckStatements(r: Request)
    requires r.target == OnTable(Core) && r.action == ConditionCheckItem
    requires !AllKeys(Patterns([CaseFamily]), r) && !AllKeys(Patterns([FenceFamily]), r)
    ensures !Granted(COMPILER_CORE, r) && !Granted(COMPILER_SHAREABLE, r) && !Granted(COMPILER_REST, r)
  {
    hide Matches, Granted, Denied, AllKeys;
    OnTableOnlyBatch(READ_PRIVATE_CORE, READ_ACTIONS, Core, r);
    OnKeysBatch(OnKeys("ConditionCheckCaseVersion", Allow, {ConditionCheckItem}, Core, Patterns([CaseFamily])),
      {ConditionCheckItem}, Core, Patterns([CaseFamily]), r);
    OnKeysBatch(OnKeys("ConditionCheckSendFence", Allow, {ConditionCheckItem}, Core, Patterns([FenceFamily])),
      {ConditionCheckItem}, Core, Patterns([FenceFamily]), r);
    OnKeysBatch(WRITE_FENCE, {PutItem, DeleteItem}, Core, Patterns([FenceFamily]), r);
    Listed(COMPILER_CORE, r);
    OnKeysBatch(WRITE_VIEWS, {PutItem, GetItem, BatchGetItem, Query}, Shareable, Patterns(VIEW_FAMILIES), r);
    OnKeysBatch(READ_VIEWS_AND_ACTIONS, READ_ACTIONS, Shareable, Patterns(COMPILER_READ_FAMILIES), r);
    OnKeysBatch(READ_CLOCK, {GetItem}, Shareable, [DEMO_CLOCK], r);
    Listed(COMPILER_SHAREABLE, r);
    OnTableOnlyBatch(AppendAudit({PutItem, GetItem}), {PutItem, GetItem}, Audit, r);
    Listed(COMPILER_REST, r);
  }

  /**
   The converse of batching fails, and this is where: the compiler may condition-check a case key
   alone and a fence key alone, but no one statement covers both.
   */
  lemma PointwiseIsNotEnough(c: PartitionKey, f: PartitionKey)
    requires InFamily(c, [CaseFamily]) && InFamily(f, [FenceFamily])
    ensures Allowed(PolicyOf(Compiler), KeyRequest(ConditionCheckItem, Core, c, Some(TRANSACT_WRITE)))
    ensures Allowed(PolicyOf(Compiler), KeyRequest(ConditionCheckItem, Core, f, Some(TRANSACT_WRITE)))
    ensures !Allowed(PolicyOf(Compiler),
              Request(ConditionCheckItem, OnTable(Core), {KeyText(c), KeyText(f)}, Some(TRANSACT_WRITE)))
  {
    hide Matches, Granted, Denied, AllKeys, KeyText;
    var both := Request(ConditionCheckItem, OnTable(Core), {KeyText(c), KeyText(f)}, Some(TRANSACT_WRITE));
    var condition := DemoResetCondition(false);
    PolicyRefinesMatrix(Compiler, ConditionCheckItem, Core, c, Some(TRANSACT_WRITE));
    PolicyRefinesMatrix(Compiler, ConditionCheckItem, Core, f, Some(TRANSACT_WRITE));
    KeyKinds(c, f, both);
    CompilerCheckStatements(both);
    ResetLockMatches(both);
    Listed(condition, both);
    Joined(COMPILER_CORE, COMPILER_SHAREABLE, both);
    Joined(COMPILER_CORE + COMPILER_SHAREABLE, condition, both);
    Joined(COMPILER_CORE + COMPILER_SHAREABLE + condition, COMPILER_REST, both);
  }
}
