/**
 Identity policies: `StringLike` globs, set-valued condition operators and explicit-deny-wins
 evaluation, with the general law that a batch cannot hide a forbidden key.
 */
module Iam {
  import opened Text

  // ---------- StringLike ----------

  /** `*` matches any run of characters, `#` included; `?` matches one character. */
  predicate Glob(p: string, s: string)
    decreases |p| + |s|
  {
    if p == "" then s == ""
    else if p[0] == '*' then Glob(p[1..], s) || (s != "" && Glob(p, s[1..]))
    else s != "" && (p[0] == '?' || p[0] == s[0]) && Glob(p[1..], s[1..])
  }

  predicate Literal(p: string) {
    forall i :: 0 <= i < |p| ==> p[i] != '*' && p[i] != '?'
  }

  lemma {:induction false} GlobLiteral(l: string, p: string, s: string)
    requires Literal(l)
    ensures Glob(l + p, s) <==> l <= s && Glob(p, s[|l|..])
  {
    if l == "" {
      assert l + p == p && s[0..] == s;
    } else {
      assert (l + p)[1..] == l[1..] + p;
      if s != "" {
        GlobLiteral(l[1..], p, s[1..]);
        assert l <= s <==> l[0] == s[0] && l[1..] <= s[1..];
        if l <= s { assert s[1..][|l| - 1..] == s[|l|..]; }
      }
    }
  }

  lemma {:induction false} GlobStar(p: string, s: string)
    ensures Glob("*" + p, s) <==> exists k :: 0 <= k <= |s| && Glob(p, s[k..])
  {
    assert ("*" + p)[1..] == p && s[0..] == s;
    if s != "" {
      GlobStar(p, s[1..]);
      assert forall k :: 0 <= k < |s| ==> s[1..][k..] == s[k + 1..];
      assert forall k :: 0 < k <= |s| ==> s[k..] == s[1..][k - 1..];
    }
  }

  lemma GlobAny(s: string)
    ensures Glob("*", s)
  {
    GlobStar("", s);
    assert "*" + "" == "*" && s[|s|..] == "";
    assert Glob("", s[|s|..]);
  }

  lemma GlobExact(p: string, s: string)
    requires Literal(p)
    ensures Glob(p, s) <==> s == p
  {
    GlobLiteral(p, "", s);
    assert p + "" == p;
  }

  // ---------- Policies ----------

  datatype Table = Core | Shareable | Audit

  /** A table, or one of its indexes. */
  datatype Target = OnTable(table: Table) | OnIndex(table: Table)

  /** A table's own ARN, everything below it, or `*`. */
  datatype Resource = TableArn(table: Table) | BelowTable(table: Table) | AnyResource

  datatype Action =
    | GetItem | BatchGetItem | Query
    | PutItem | UpdateItem | DeleteItem | BatchWriteItem
    | ConditionCheckItem
    | Scan | CreateTable | DeleteTable
    | OtherAction(name: string)

  datatype Effect = Allow | Deny
  datatype ActionList = Actions(names: set<Action>) | NotActions(names: set<Action>)
  datatype Quantifier = ForAllValues | ForAnyValue
  datatype Comparison = StringLike | StringEquals | StringNotEquals

  datatype Condition =
    | LeadingKeys(quantifier: Quantifier, comparison: Comparison, values: seq<string>)
    | EnclosingOperation(operation: string)

  datatype Statement = Statement(
    sid: string, effect: Effect, actions: ActionList, resources: seq<Resource>, conditions: seq<Condition>)

  datatype Request = Request(action: Action, target: Target, keys: set<string>, enclosing: Option<string>)

  predicate Covers(r: Resource, t: Target) {
    match r
    case TableArn(table) => t == OnTable(table)
    case BelowTable(table) => t == OnIndex(table)
    case AnyResource => true
  }

  predicate KeySatisfies(c: Comparison, values: seq<string>, key: string) {
    match c
    case StringLike => exists v :: v in values && Glob(v, key)
    case StringEquals => key in values
    case StringNotEquals => key !in values
  }

  predicate Satisfied(c: Condition, r: Request) {
    match c
    case LeadingKeys(ForAllValues, op, values) => forall k :: k in r.keys ==> KeySatisfies(op, values, k)
    case LeadingKeys(ForAnyValue, op, values) => exists k :: k in r.keys && KeySatisfies(op, values, k)
    case EnclosingOperation(operation) => r.enclosing == Some(operation)
  }

  predicate NamesAction(a: ActionList, action: Action) {
    if a.Actions? then action in a.names else action !in a.names
  }

  predicate Matches(s: Statement, r: Request) {
    && NamesAction(s.actions, r.action)
    && (exists x :: x in s.resources && Covers(x, r.target))
    && (forall c :: c in s.conditions ==> Satisfied(c, r))
  }

  predicate Granted(policy: seq<Statement>, r: Request) {
    exists s :: s in policy && s.effect == Allow && Matches(s, r)
  }

  predicate Denied(policy: seq<Statement>, r: Request) {
    exists s :: s in policy && s.effect == Deny && Matches(s, r)
  }

  /** Explicit deny wins; otherwise some statement has to allow. */
  predicate Allowed(policy: seq<Statement>, r: Request) {
    Granted(policy, r) && !Denied(policy, r)
  }

  /** An identity whose policy grows statement by statement. */
  class Role {
    var policy: seq<Statement>

    constructor ()
      ensures policy == []
    {
      policy := [];
    }

    method AddToPolicy(s: Statement)
      modifies this
      ensures policy == old(policy) + [s]
    {
      policy := policy + [s];
    }
  }

  // ---------- No key hides in a batch ----------

  function OneKey(r: Request, key: string): Request { r.(keys := {key}) }

  /** Allow conditions quantify over all keys of a request, deny conditions over any of them. */
  ghost predicate FailsClosed(s: Statement) {
    forall c :: c in s.conditions && c.LeadingKeys? ==>
      c.quantifier == if s.effect == Allow then ForAllValues else ForAnyValue
  }

  lemma OneKeySatisfied(c: Condition, r: Request, key: string)
    requires key in r.keys
    ensures c.LeadingKeys? && c.quantifier == ForAllValues && Satisfied(c, r) ==> Satisfied(c, OneKey(r, key))
    ensures c.LeadingKeys? && c.quantifier == ForAnyValue && Satisfied(c, OneKey(r, key)) ==> Satisfied(c, r)
    ensures c.EnclosingOperation? ==> (Satisfied(c, r) <==> Satisfied(c, OneKey(r, key)))
  {
    assert key in OneKey(r, key).keys;
  }

  lemma OneKeyMatches(s: Statement, r: Request, key: string)
    requires FailsClosed(s) && key in r.keys
    ensures s.effect == Allow && Matches(s, r) ==> Matches(s, OneKey(r, key))
    ensures s.effect == Deny && Matches(s, OneKey(r, key)) ==> Matches(s, r)
  {
    forall c | c in s.conditions
      ensures s.effect == Allow && Satisfied(c, r) ==> Satisfied(c, OneKey(r, key))
      ensures s.effect == Deny && Satisfied(c, OneKey(r, key)) ==> Satisfied(c, r)
    {
      OneKeySatisfied(c, r, key);
    }
  }

  /** A request allowed on a set of keys is allowed on each key alone: one forbidden key refuses the whole set. */
  lemma NoKeyHides(policy: seq<Statement>, r: Request, key: string)
    requires forall s :: s in policy ==> FailsClosed(s)
    requires key in r.keys && Allowed(policy, r)
    ensures Allowed(policy, OneKey(r, key))
  {
    var s :| s in policy && s.effect == Allow && Matches(s, r);
    OneKeyMatches(s, r, key);
    if d :| d in policy && d.effect == Deny && Matches(d, OneKey(r, key)) { OneKeyMatches(d, r, key); }
  }

  /** A statement tests the keys in at most one way. */
  ghost predicate OneKeyTest(s: Statement) {
    forall c, d :: c in s.conditions && d in s.conditions && c.LeadingKeys? && d.LeadingKeys? ==> c == d
  }

  lemma KeyTest(c: Condition, r: Request, key: string)
    requires c.LeadingKeys?
    ensures Satisfied(c, OneKey(r, key)) <==> KeySatisfies(c.comparison, c.values, key)
  {
    assert key in OneKey(r, key).keys;
  }

  /** An allow statement matches a batch exactly when it matches every key of it. */
  lemma AllowBatch(s: Statement, r: Request)
    requires s.effect == Allow && FailsClosed(s) && r.keys != {}
    ensures Matches(s, r) <==> forall k :: k in r.keys ==> Matches(s, OneKey(r, k))
  {
    var some :| some in r.keys;
    forall k | k in r.keys ensures Matches(s, r) ==> Matches(s, OneKey(r, k)) { OneKeyMatches(s, r, k); }
    if forall k :: k in r.keys ==> Matches(s, OneKey(r, k)) {
      assert Matches(s, OneKey(r, some));
      forall c | c in s.conditions ensures Satisfied(c, r) {
        if c.LeadingKeys? {
          forall k | k in r.keys ensures KeySatisfies(c.comparison, c.values, k) {
            assert Matches(s, OneKey(r, k));
            KeyTest(c, r, k);
          }
        } else {
          OneKeySatisfied(c, r, some);
        }
      }
    }
  }

  /** A deny statement matches a batch exactly when it matches some key of it. */
  lemma DenyBatch(s: Statement, r: Request)
    requires s.effect == Deny && FailsClosed(s) && OneKeyTest(s) && r.keys != {}
    ensures Matches(s, r) <==> exists k :: k in r.keys && Matches(s, OneKey(r, k))
  {
    var key :| key in r.keys;
    forall k | k in r.keys ensures Matches(s, OneKey(r, k)) ==> Matches(s, r) { OneKeyMatches(s, r, k); }
    if Matches(s, r) {
      if c :| c in s.conditions && c.LeadingKeys? {
        assert Satisfied(c, r);
        key :| key in r.keys && KeySatisfies(c.comparison, c.values, key);
        KeyTest(c, r, key);
      }
      forall d | d in s.conditions ensures Satisfied(d, OneKey(r, key)) {
        OneKeySatisfied(d, r, key);
      }
      assert Matches(s, OneKey(r, key));
    }
  }

  /**
   Exactly what a batch is allowed: one and the same statement has to allow every key on its own,
   and no statement may deny any of them.
   */
  lemma BatchAllowed(policy: seq<Statement>, r: Request)
    requires r.keys != {} && forall s :: s in policy ==> FailsClosed(s) && OneKeyTest(s)
    ensures Allowed(policy, r) <==>
            && (exists s :: s in policy && s.effect == Allow && forall k :: k in r.keys ==> Matches(s, OneKey(r, k)))
            && (forall k :: k in r.keys ==> !Denied(policy, OneKey(r, k)))
  {
    forall s | s in policy && s.effect == Allow
      ensures Matches(s, r) <==> forall k :: k in r.keys ==> Matches(s, OneKey(r, k))
    {
      AllowBatch(s, r);
    }
    forall s | s in policy && s.effect == Deny
      ensures Matches(s, r) <==> exists k :: k in r.keys && Matches(s, OneKey(r, k))
    {
      DenyBatch(s, r);
    }
  }
}
