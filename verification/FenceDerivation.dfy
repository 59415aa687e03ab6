/**
 Choosing the token: up to 64 derivations are tried until one occurs in no untrusted value, and
 refusing to render needs long input.
 */
module FenceDerivation {
  import opened Text
  import opened Fencing
  import opened Identifiers

  /** Try each derivation in turn and return the first that collides with no value. */
  method DeriveFence(values: seq<string>, d: Derivation, digest: string -> HexDigest) returns (r: Option<string>)
    ensures r.Some? ==>
              !InAny(r.value, values) &&
              exists a :: 0 <= a < 64 && r.value == FenceToken(d, digest, a) &&
                          forall b :: 0 <= b < a ==> InAny(FenceToken(d, digest, b), values)
    ensures r.None? ==> forall a :: 0 <= a < 64 ==> InAny(FenceToken(d, digest, a), values)
  {
    var attempt := 0;
    while attempt < MAX_FENCE_DERIVATIONS
      invariant 0 <= attempt <= MAX_FENCE_DERIVATIONS
      invariant forall b :: 0 <= b < attempt ==> InAny(FenceToken(d, digest, b), values)
    {
      var token := FenceToken(d, digest, attempt);
      var i, collides := 0, false;
      while i < |values| && !collides
        invariant 0 <= i <= |values|
        invariant collides <==> InAny(token, values[..i])
      {
        collides := Contains(token, values[i]);
        assert values[..i + 1] == values[..i] + [values[i]];
        i := i + 1;
      }
      assert values[..|values|] == values;
      if !collides { return Some(token); }
      attempt := attempt + 1;
    }
    r := None;
  }

  // ---------- Refusal needs long input ----------

  function TotalLength(values: seq<string>): nat {
    if values == [] then 0 else |values[0]| + TotalLength(values[1..])
  }

  /** The least length of a text that holds `k` distinct tokens, each advancing it by `step`. */
  function Span(k: nat, step: nat): nat {
    if k == 0 then 0 else step + Span(k - 1, step)
  }

  lemma {:induction false} SpanAdds(j: nat, k: nat, step: nat)
    ensures Span(j + k, step) == Span(j, step) + Span(k, step)
  {
    if j != 0 { SpanAdds(j - 1, k, step); }
  }

  /** Tokens of one derivation: equally long and shaped as tokens are. */
  ghost predicate Tokens(tokens: set<string>, length: nat) {
    forall t :: t in tokens ==> IsToken(t) && |t| == length
  }

  /** The token of a set that occurs last in `s`. */
  lemma {:induction false} Last(tokens: set<string>, s: string) returns (m: string)
    requires tokens != {}
    ensures m in tokens && forall t :: t in tokens ==> Find(t, s) <= Find(m, s)
    decreases tokens
  {
    m :| m in tokens;
    var rest := tokens - {m};
    assert forall t :: t in tokens ==> t == m || t in rest;
    if rest != {} {
      var n := Last(rest, s);
      if Find(m, s) < Find(n, s) { m := n; }
    }
  }

  lemma Apart(t: string, u: string, s: string)
    requires IsToken(t) && IsToken(u) && |t| == |u| && t != u
    requires Occurs(t, s) && Occurs(u, s) && Find(t, s) <= Find(u, s)
    ensures |t| - 1 <= Find(u, s) - Find(t, s)
  {
    var i, j := Find(t, s), Find(u, s);
    assert s[i..i + |t|] == t && s[j..j + |u|] == u;
    OccurrencesApart(t, u, s, i, j);
  }

  /** Distinct tokens that all occur in `s` at or before `hi` are few, because occurrences stay apart. */
  lemma {:induction false} OffsetsSpread(tokens: set<string>, length: nat, s: string, hi: int)
    requires tokens != {} && Tokens(tokens, length) && 2 <= length
    requires forall t :: t in tokens ==> Occurs(t, s) && Find(t, s) <= hi
    ensures Span(|tokens|, length - 1) <= hi + (length - 1)
    decreases tokens
  {
    var m := Last(tokens, s);
    var rest := tokens - {m};
    assert |tokens| == |rest| + 1;
    if rest != {} {
      forall t | t in rest ensures Find(t, s) <= Find(m, s) - (length - 1) { Apart(t, m, s); }
      OffsetsSpread(rest, length, s, Find(m, s) - (length - 1));
    }
  }

  /** One text that holds `k > 0` distinct tokens of length `L` has at least `k(L - 1) + 1` characters. */
  lemma OneTextHolds(tokens: set<string>, length: nat, s: string)
    requires tokens != {} && Tokens(tokens, length) && 2 <= length
    requires forall t :: t in tokens ==> Occurs(t, s)
    ensures Span(|tokens|, length - 1) + 1 <= |s|
  {
    OffsetsSpread(tokens, length, s, |s| - length);
  }

  /** The tokens that one text holds. */
  ghost function Held(tokens: set<string>, s: string): (held: set<string>)
    ensures held <= tokens
  {
    set t | t in tokens && Occurs(t, s)
  }

  lemma SpanSplit(tokens: set<string>, here: set<string>, step: nat)
    requires here <= tokens
    ensures Span(|tokens|, step) == Span(|here|, step) + Span(|tokens - here|, step)
  {
    assert here + (tokens - here) == tokens;
    SpanAdds(|here|, |tokens - here|, step);
  }

  /** The same bound over several texts. */
  lemma {:induction false} TextsHold(tokens: set<string>, length: nat, values: seq<string>)
    requires tokens != {} && Tokens(tokens, length) && 2 <= length
    requires forall t :: t in tokens ==> InAny(t, values)
    ensures Span(|tokens|, length - 1) + 1 <= TotalLength(values)
    decreases values
  {
    var t0 :| t0 in tokens;
    assert InAny(t0, values);
    var here := Held(tokens, values[0]);
    var later := tokens - here;
    forall t | t in later ensures InAny(t, values[1..]) { InAnyTail(t, values); }
    if later != {} { TextsHold(later, length, values[1..]); }
    if here != {} { OneTextHolds(here, length, values[0]); }
    SpanSplit(tokens, here, length - 1);
  }

  /** The set of all tokens a derivation can try. */
  ghost function AllTokens(d: Derivation, digest: string -> HexDigest, n: nat): set<string> {
    if n == 0 then {} else AllTokens(d, digest, n - 1) + {FenceToken(d, digest, n - 1)}
  }

  lemma {:induction false} AttemptOf(d: Derivation, digest: string -> HexDigest, n: nat, t: string) returns (a: nat)
    requires t in AllTokens(d, digest, n)
    ensures a < n && t == FenceToken(d, digest, a)
  {
    a := n - 1;
    if t != FenceToken(d, digest, a) { a := AttemptOf(d, digest, a, t); }
  }

  lemma {:induction false} DistinctTokens(d: Derivation, digest: string -> HexDigest, n: nat)
    requires forall a, b :: 0 <= a < b < n ==> FenceToken(d, digest, a) != FenceToken(d, digest, b)
    ensures |AllTokens(d, digest, n)| == n
  {
    if n != 0 {
      DistinctTokens(d, digest, n - 1);
      if FenceToken(d, digest, n - 1) in AllTokens(d, digest, n - 1) {
        var a := AttemptOf(d, digest, n - 1, FenceToken(d, digest, n - 1));
      }
    }
  }

  lemma {:induction false} SpanIsProduct(k: nat, step: nat)
    ensures Span(k, step) == k * step
  {
    if k != 0 {
      SpanIsProduct(k - 1, step);
      assert (k - 1) * step + step == k * step;
    }
  }

  /**
   Refusing to render is bounded below: when the 64 derived tokens are pairwise distinct and all of
   them collide, the untrusted values together hold at least 64 * (token length - 1) + 1
   characters, that is 2241 for data markers and 2305 for reply markers.
   */
  lemma RefusalNeedsLongText(values: seq<string>, d: Derivation, digest: string -> HexDigest)
    requires d.prefix in {DATA_PREFIX, REPLY_PREFIX}
    requires forall a, b :: 0 <= a < b < 64 ==> FenceToken(d, digest, a) != FenceToken(d, digest, b)
    requires forall a :: 0 <= a < 64 ==> InAny(FenceToken(d, digest, a), values)
    ensures d.prefix == DATA_PREFIX ==> 64 * 35 + 1 <= TotalLength(values)
    ensures d.prefix == REPLY_PREFIX ==> 64 * 36 + 1 <= TotalLength(values)
  {
    var tokens := AllTokens(d, digest, MAX_FENCE_DERIVATIONS);
    DistinctTokens(d, digest, MAX_FENCE_DERIVATIONS);
    forall t | t in tokens ensures IsToken(t) && |t| == |d.prefix| + 24 && InAny(t, values) {
      var a := AttemptOf(d, digest, MAX_FENCE_DERIVATIONS, t);
      FenceTokenShape(d, digest, a);
    }
    TextsHold(tokens, |d.prefix| + 24, values);
    SpanIsProduct(64, |d.prefix| + 23);
  }

  /** The text that chains tokens by their shared character. */
  function Chain(tokens: seq<string>): (s: string)
    requires tokens != [] && forall i :: 0 <= i < |tokens| ==> IsToken(tokens[i])
    ensures tokens[0] <= s
  {
    if |tokens| == 1 then tokens[0] else tokens[0] + Chain(tokens[1..])[1..]
  }

  lemma SharedCharacter(a: string, b: string)
    requires a != "" && b != "" && a[|a| - 1] == b[0]
    ensures a + b[1..] == a[..|a| - 1] + b
  {
  }

  lemma ChainStep(tokens: seq<string>, length: nat)
    requires 1 < |tokens| && 2 <= length
    requires forall i :: 0 <= i < |tokens| ==> IsToken(tokens[i]) && |tokens[i]| == length && tokens[i][length - 1] == 'C'
    ensures Chain(tokens) == tokens[0][..length - 1] + Chain(tokens[1..])
  {
    assert tokens[1][0] == 'C';
    hide IsToken;
    assert tokens[1..][0] <= Chain(tokens[1..]);
    SharedCharacter(tokens[0], Chain(tokens[1..]));
  }

  /** The bound is attained: tokens that end in `C` chain into a text of exactly that length. */
  lemma {:induction false} BoundAttained(tokens: seq<string>, length: nat)
    requires tokens != [] && 2 <= length
    requires forall i :: 0 <= i < |tokens| ==> IsToken(tokens[i]) && |tokens[i]| == length && tokens[i][length - 1] == 'C'
    ensures |Chain(tokens)| == Span(|tokens|, length - 1) + 1
    ensures forall i :: 0 <= i < |tokens| ==> Occurs(tokens[i], Chain(tokens))
  {
    hide IsToken;
    assert At(tokens[0], Chain(tokens), 0);
    if 1 < |tokens| {
      BoundAttained(tokens[1..], length);
      ChainStep(tokens, length);
      var head, more := tokens[0][..length - 1], Chain(tokens[1..]);
      hide Chain, Span, Find;
      forall i | 1 <= i < |tokens| ensures Occurs(tokens[i], head + more) {
        assert Occurs(tokens[1..][i - 1], more);
        AtRight(tokens[i], head, more, Find(tokens[i], more));
      }
    }
  }

  // ---------- Whose token it is ----------

  /** The four prompts, each with its own prefix and domain separator. */
  datatype Prompt = MonitorFence | InvestigatorFence | ActionFence | CommitmentFence

  function DerivationFor(prompt: Prompt, invocation: Uuid): Derivation {
    match prompt
    case MonitorFence => Derivation("CHORUS_DATA_", "chorus-monitor-fence/v1", PrintUuid(invocation))
    case InvestigatorFence => Derivation("CHORUS_DATA_", "chorus-investigator-fence/v1", PrintUuid(invocation))
    case ActionFence => Derivation("CHORUS_DATA_", "chorus-action-fence/v1", PrintUuid(invocation))
    case CommitmentFence => Derivation("CHORUS_REPLY_", "chorus-commitment-fence/v1", PrintUuid(invocation))
  }

  /** What precedes the first colon is determined by the text. */
  lemma UpToColon(a: string, x: string, b: string, y: string)
    requires ':' !in a && ':' !in b && a + ":" + x == b + ":" + y
    ensures a == b && x == y
  {
    var s := a + ":" + x;
    assert s[|a|] == ':' && s[|b|] == ':';
    assert forall i :: 0 <= i < |a| ==> s[i] == a[i];
    assert forall i :: 0 <= i < |b| ==> s[i] == b[i];
    assert |a| == |b|;
    assert s[..|a|] == a && s[..|b|] == b && s[|a| + 1..] == x && s[|b| + 1..] == y;
  }

  /** The domains are told apart by their eighth letter. */
  lemma DomainLetter(p: Prompt, u: Uuid)
    ensures var d := DerivationFor(p, u);
            && 8 < |d.domain| && d.invocation == PrintUuid(u)
            && d.domain[7] == match p case MonitorFence => 'm' case InvestigatorFence => 'i' case ActionFence => 'a' case CommitmentFence => 'c'
  {
    hide PrintUuid;
  }

  lemma DomainHasNoColon(p: Prompt, u: Uuid)
    ensures ':' !in DerivationFor(p, u).domain
  {
    hide PrintUuid;
  }

  lemma NoColon(u: Uuid)
    ensures ':' !in PrintUuid(u)
  {
    PrintedIsUuidText(u);
    var p := PrintUuid(u);
    forall i | 0 <= i < |p| ensures p[i] != ':' { assert if HyphenAt(i) then p[i] == '-' else LowerHex(p[i]); }
  }

  /** The seed holds the prompt, the invocation and the attempt, and can be read back. */
  lemma SeedsDiffer(p: Prompt, u: Uuid, a: nat, q: Prompt, v: Uuid, b: nat)
    requires Seed(DerivationFor(p, u), a) == Seed(DerivationFor(q, v), b)
    ensures p == q && u == v && a == b
  {
    hide PrintUuid, Decimal, DerivationFor;
    var d, e := DerivationFor(p, u), DerivationFor(q, v);
    DomainLetter(p, u);
    DomainLetter(q, v);
    DomainHasNoColon(p, u);
    DomainHasNoColon(q, v);
    UpToColon(d.domain, d.invocation + ":" + Decimal(a), e.domain, e.invocation + ":" + Decimal(b));
    NoColon(u);
    NoColon(v);
    UpToColon(d.invocation, Decimal(a), e.invocation, Decimal(b));
    PrintedIsUuidText(u);
    PrintedIsUuidText(v);
    DecimalRoundTrip(a);
    DecimalRoundTrip(b);
  }

  /** The seed in full: the prompt's domain and version, the invocation, the attempt. */
  lemma SeedsRead(p: Prompt, u: Uuid, a: nat)
    ensures Seed(DerivationFor(p, u), a) ==
            (match p
             case MonitorFence => "chorus-monitor-fence/v1"
             case InvestigatorFence => "chorus-investigator-fence/v1"
             case ActionFence => "chorus-action-fence/v1"
             case CommitmentFence => "chorus-commitment-fence/v1") + ":" + (PrintUuid(u) + ":" + Decimal(a))
  {
  }

  /** A digest that answers every seed with the digits wanted for it. */
  ghost function Answering(wanted: (Prompt, Uuid, nat) -> HexDigest, seed: string): HexDigest {
    if p, u, a :| Seed(DerivationFor(p, u), a) == seed then wanted(p, u, a) else seq(64, _ => '0')
  }

  lemma AnsweredAsWanted(wanted: (Prompt, Uuid, nat) -> HexDigest, p: Prompt, u: Uuid, a: nat)
    ensures Answering(wanted, Seed(DerivationFor(p, u), a)) == wanted(p, u, a)
  {
    hide Seed, DerivationFor;
    forall q, v, b | Seed(DerivationFor(q, v), b) == Seed(DerivationFor(p, u), a) ensures q == p && v == u && b == a {
      SeedsDiffer(q, v, b, p, u, a);
    }
  }

  /**
   Tokens are as free as digests: whatever digits are wanted for each prompt, invocation and attempt,
   some digest yields exactly those tokens at once. So no token says anything about another prompt's,
   another invocation's or another attempt's.
   */
  lemma TokensIndependent(wanted: (Prompt, Uuid, nat) -> HexDigest) returns (digest: string -> HexDigest)
    ensures forall p, u, a ::
              FenceToken(DerivationFor(p, u), digest, a) ==
              (if p == CommitmentFence then "CHORUS_REPLY_" else "CHORUS_DATA_") + Upper(wanted(p, u, a)[..24])
  {
    digest := seed => Answering(wanted, seed);
    forall p, u, a ensures
      FenceToken(DerivationFor(p, u), digest, a) ==
      (if p == CommitmentFence then "CHORUS_REPLY_" else "CHORUS_DATA_") + Upper(wanted(p, u, a)[..24])
    {
      AnsweredAsWanted(wanted, p, u, a);
    }
  }

  /** The token keeps each of the 24 digits: as tokens differ, so do digests, and the other way round. */
  lemma TokensTellDigests(d: Derivation, digest: string -> HexDigest, a: nat, e: Derivation, other: string -> HexDigest, b: nat)
    requires d.prefix == e.prefix
    ensures FenceToken(d, digest, a) == FenceToken(e, other, b) <==> digest(Seed(d, a))[..24] == other(Seed(e, b))[..24]
  {
    var x, y := digest(Seed(d, a))[..24], other(Seed(e, b))[..24];
    var t, w := FenceToken(d, digest, a), FenceToken(e, other, b);
    if t == w {
      forall i | 0 <= i < 24 ensures x[i] == y[i] {
        assert Upper(x)[i] == t[|d.prefix| + i] == w[|d.prefix| + i] == Upper(y)[i];
      }
    }
  }

  /** A digest of zeros for one seed, and of other digits for the rest. */
  function Marking(marked: string, seed: string): HexDigest { if seed == marked then seq(64, _ => '0') else seq(64, _ => 'f') }

  /** Any two prompts, invocations or attempts get different tokens from some digest. */
  lemma TokensSeparate(p: Prompt, u: Uuid, a: nat, q: Prompt, v: Uuid, b: nat) returns (digest: string -> HexDigest)
    requires p != q || u != v || a != b
    ensures FenceToken(DerivationFor(p, u), digest, a) != FenceToken(DerivationFor(q, v), digest, b)
  {
    hide Seed, PrintUuid;
    var d, e := DerivationFor(p, u), DerivationFor(q, v);
    var marked := Seed(d, a);
    digest := seed => Marking(marked, seed);
    if marked == Seed(e, b) { SeedsDiffer(p, u, a, q, v, b); }
    if d.prefix == e.prefix {
      TokensTellDigests(d, digest, a, e, digest, b);
      assert digest(marked)[..24][0] == '0' && digest(Seed(e, b))[..24][0] == 'f';
    } else {
      assert FenceToken(d, digest, a)[7] == d.prefix[7] && FenceToken(e, digest, b)[7] == e.prefix[7];
    }
  }
}
