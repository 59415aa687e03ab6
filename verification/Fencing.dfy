/**
 Prompt fencing: the per-invocation token, the markers built from it, and a reader that knows
 only the format. The three agent runtimes and the commitment prompt share this scheme.
 */
module Fencing {
  import opened Text

  const DATA_PREFIX := "CHORUS_DATA_"
  const REPLY_PREFIX := "CHORUS_REPLY_"
  const FENCE_HEX_LENGTH: nat := 24
  const MAX_FENCE_DERIVATIONS: nat := 64

  // ---------- Tokens ----------

  /** What `sha256(...).hexdigest()` returns; the digest itself is not interpreted. */
  type HexDigest = s: string | |s| == 64 && forall i :: 0 <= i < |s| ==> LowerHex(s[i])
    witness seq(64, _ => '0')

  predicate UpperHex(c: char) { '0' <= c <= '9' || 'A' <= c <= 'F' }

  function UpperHexDigit(c: char): (u: char)
    requires LowerHex(c)
    ensures UpperHex(u)
  {
    if 'a' <= c <= 'f' then (c as int - 'a' as int + 'A' as int) as char else c
  }

  /** `.upper()` on hexadecimal digits. */
  function Upper(s: string): (u: string)
    requires forall i :: 0 <= i < |s| ==> LowerHex(s[i])
    ensures |u| == |s| && forall i :: 0 <= i < |s| ==> UpperHex(u[i])
  {
    seq(|s|, i requires 0 <= i < |s| => UpperHexDigit(s[i]))
  }

  /** One runtime's derivation: its prefix, its domain separator and the invocation identity. */
  datatype Derivation = Derivation(prefix: string, domain: string, invocation: string)

  /** The text whose digest makes the token. */
  function Seed(d: Derivation, attempt: nat): string { d.domain + ":" + (d.invocation + ":" + Decimal(attempt)) }

  /** The token of one attempt: prefix and the first 24 digits of a seeded digest, upper-cased. */
  function FenceToken(d: Derivation, digest: string -> HexDigest, attempt: nat): string {
    d.prefix + Upper(digest(Seed(d, attempt))[..FENCE_HEX_LENGTH])
  }

  predicate TokenChar(c: char) { 'A' <= c <= 'Z' || '0' <= c <= '9' || c == '_' }

  /** What every derived token looks like; `H` occurs in second place and nowhere else. */
  predicate IsToken(t: string) {
    && 2 <= |t|
    && t[0] == 'C' && t[1] == 'H'
    && (forall i :: 2 <= i < |t| ==> t[i] != 'H')
    && (forall i :: 0 <= i < |t| ==> TokenChar(t[i]))
  }

  lemma PrefixShape(prefix: string)
    requires prefix in {DATA_PREFIX, REPLY_PREFIX}
    ensures IsToken(prefix)
  {
    assert prefix == DATA_PREFIX || prefix == REPLY_PREFIX;
  }

  lemma FenceTokenShape(d: Derivation, digest: string -> HexDigest, attempt: nat)
    requires d.prefix in {DATA_PREFIX, REPLY_PREFIX}
    ensures IsToken(FenceToken(d, digest, attempt))
    ensures |FenceToken(d, digest, attempt)| == |d.prefix| + 24
  {
    PrefixShape(d.prefix);
    var t := FenceToken(d, digest, attempt);
    assert forall i :: 0 <= i < |d.prefix| ==> t[i] == d.prefix[i];
    assert forall i :: |d.prefix| <= i < |t| ==> UpperHex(t[i]);
  }

  /** Two occurrences of equally long tokens overlap by at most one character. */
  lemma OccurrencesApart(t: string, u: string, s: string, i: int, j: int)
    requires IsToken(t) && IsToken(u) && |t| == |u|
    requires At(t, s, i) && At(u, s, j) && i < j
    ensures |t| - 1 <= j - i
  {
    assert s[j + 1] == s[j..j + |u|][1] == 'H';
    assert forall k :: 0 <= k < |t| ==> s[i..i + |t|][k] == t[k];
    assert forall k :: i <= k < i + |t| ==> s[k] == t[k - i];
  }

  // ---------- Markers ----------

  function Opening(t: string): string { "<<<" + t }

  function Closing(t: string): string { t + ">>>" }

  /** One untrusted value between this invocation's markers, verbatim. */
  function Fence(value: string, t: string): string { Opening(t) + value + Closing(t) }

  /** Neither marker has a border, although the bare token may overlap itself by one character. */
  lemma MarkersUnbordered(t: string)
    requires IsToken(t)
    ensures Unbordered(Opening(t)) && Unbordered(Closing(t))
  {
    var o, c := Opening(t), Closing(t);
    forall d | 0 < d < |o| ensures o[d..] != o[..|o| - d] {
      // position 3 holds 'C', position 3 - d holds '<', or position d does not hold '<'
      assert o[3] == 'C' && o[0] == o[1] == o[2] == '<';
      if d < 3 { assert o[d..][3 - d] == 'C' && o[..|o| - d][3 - d] == '<'; }
      else { assert o[d..][0] == t[d - 3] && o[..|o| - d][0] == '<'; }
    }
    forall d | 0 < d < |c| ensures c[d..] != c[..|c| - d] {
      assert c[|t|] == '>';
      if d <= |t| { assert c[d..][|t| - d] == '>' && c[..|c| - d][|t| - d] == t[|t| - d]; }
      else { assert c[d..][0] == '>' && c[..|c| - d][0] == 'C'; }
    }
  }

  /** A value that lacks the bare token lacks the closing marker. */
  lemma ClosingHoldsToken(t: string, value: string)
    ensures Occurs(Closing(t), value) ==> Occurs(t, value)
  {
    if i :| At(Closing(t), value, i) {
      assert value[i..i + |t|] == value[i..i + |Closing(t)|][..|t|] == t;
      assert At(t, value, i);
    }
  }

  // ---------- The reader ----------

  function Prepend(value: string, r: Option<seq<string>>): Option<seq<string>> {
    match r
    case None => None
    case Some(more) => Some([value] + more)
  }

  /** Alternate "next opening marker" and "next closing marker"; an unclosed block is malformed. */
  ghost function ReadBlocks(t: string, s: string): Option<seq<string>>
    decreases |s|
  {
    var o := Find(Opening(t), s);
    if o < 0 then Some([]) else ReadBlock(t, s[o + |Opening(t)|..])
  }

  /** The reader just after an opening marker. */
  ghost function ReadBlock(t: string, inner: string): Option<seq<string>>
    decreases |inner|
  {
    var c := Find(Closing(t), inner);
    if c < 0 then None else Prepend(inner[..c], ReadBlocks(t, inner[c + |Closing(t)|..]))
  }

  /** A fenced value and what follows it. */
  function Honest(value: string, rest: string, t: string): string {
    Opening(t) + (value + (Closing(t) + rest))
  }

  /** One step of the reader over an honest block. */
  lemma ReadOne(t: string, gap: string, value: string, rest: string)
    requires IsToken(t) && !Occurs(Opening(t), gap) && !Occurs(Closing(t), value)
    ensures ReadBlocks(t, gap + Honest(value, rest, t)) == Prepend(value, ReadBlocks(t, rest))
  {
    MarkersUnbordered(t);
    var tail := Closing(t) + rest;
    FirstMarker(Closing(t), value, tail);
    var inner := value + tail;
    assert inner[..|value|] == value && inner[|value| + |Closing(t)|..] == rest;
    var s := gap + (Opening(t) + inner);
    FirstMarker(Opening(t), gap, Opening(t) + inner);
    assert s[|gap| + |Opening(t)|..] == inner;
  }

  /** Text runs and fenced values in alternation: run 0, value 0, run 1, ..., last run. */
  function Weave(gaps: seq<string>, values: seq<string>, t: string): string
    requires |gaps| == |values| + 1
  {
    if values == [] then gaps[0]
    else gaps[0] + Honest(values[0], Weave(gaps[1..], values[1..], t), t)
  }

  /**
   The round trip: the reader recovers exactly the fenced values, in order, provided no text run
   holds the opening marker. The token-freedom of the values is what the derivation establishes.
   */
  lemma {:induction false} ReadsBack(gaps: seq<string>, values: seq<string>, t: string)
    requires IsToken(t) && |gaps| == |values| + 1
    requires !InAny(t, values)
    requires !InAny(Opening(t), gaps)
    ensures ReadBlocks(t, Weave(gaps, values, t)) == Some(values)
  {
    assert gaps[0] in gaps;
    if values != [] {
      assert values[0] in values;
      InAnyTail(t, values);
      InAnyTail(Opening(t), gaps);
      ClosingHoldsToken(t, values[0]);
      ReadsBack(gaps[1..], values[1..], t);
      ReadOne(t, gaps[0], values[0], Weave(gaps[1..], values[1..], t));
      assert [values[0]] + values[1..] == values;
    }
  }

  /**
   The first closing marker after a forged opening one: inside the same text run, or between the
   honest token and the honest closing marker.
   */
  lemma ForgedCloseAt(t: string, gap: string, value: string, tail: string)
    requires IsToken(t) && Closing(t) <= tail
    ensures var s := (gap + "<<<") + ((t + value) + tail);
            var c := Find(Closing(t), s);
            && 0 <= c && (c + |Closing(t)| <= |gap| || |gap| + 3 <= c <= |gap| + 3 + |t + value|)
  {
    var m, before, after := Closing(t), gap + "<<<", (t + value) + tail;
    MarkersUnbordered(t);
    assert At(m, tail, 0) && At(m, after, |t + value|) by { AtRight(m, t + value, tail, 0); }
    AtRight(m, before, after, |t + value|);
    var c := Find(m, before + after);
    AtInConcat(m, before, after, c);
    assert forall k :: |gap| <= k < |before| ==> (before + after)[k] == '<';
    assert forall k :: 0 <= k < |m| ==> m[k] != '<';
    var k := if c <= |gap| then |gap| else c;
    assert c <= k < c + |m| ==> (before + after)[k] == m[k - c];
  }

  /** Two overlapping occurrences make a border. */
  lemma Overlap(m: string, s: string, i: int, j: int)
    requires At(m, s, i) && At(m, s, j) && i < j < i + |m|
    ensures m[j - i..] == m[..|m| - (j - i)]
  {
    assert s[i..i + |m|][j - i..] == s[j..i + |m|] == s[j..j + |m|][..|m| - (j - i)];
  }

  /** An occurrence of a marker before another one does not run into it. */
  lemma NoCrossing(m: string, a: string, b: string, k: int)
    requires Unbordered(m) && m <= b && At(m, a + b, k) && k < |a|
    ensures At(m, a, k)
  {
    assert At(m, b, 0);
    AtRight(m, a, b, 0);
    AtInConcat(m, a, b, k);
    if |a| < k + |m| { Overlap(m, a + b, k, |a|); }
  }

  /** After a forged opening marker: closed in its own run, read past the next token, or closed by that token itself. */
  lemma ForgedClose(t: string, gap: string, value: string, rest: string)
    requires IsToken(t)
    ensures var s := gap + Honest(value, rest, t);
            var c := Find(Closing(t), s);
            && 0 <= c <= |s|
            && (|| c + |Closing(t)| <= |gap|
                || Occurs(t, s[..c])
                || (|gap| + 3 <= c && At(Closing(t), t + value, c - |gap| - 3) && c - |gap| - 3 < |t|))
  {
    var s, p := gap + Honest(value, rest, t), |gap| + 3;
    var tail := Closing(t) + rest;
    assert s == (gap + "<<<") + ((t + value) + tail);
    ForgedCloseAt(t, gap, value, tail);
    var c := Find(Closing(t), s);
    if p + |t| <= c {
      assert s[..c][p..p + |t|] == t;
      assert At(t, s[..c], p);
    } else if p <= c {
      AtInConcat(Closing(t), gap + "<<<", (t + value) + tail, c);
      MarkersUnbordered(t);
      NoCrossing(Closing(t), t + value, tail, c - p);
    }
  }

  /** What a closing marker at offset `k` of `t + value` leaves of the value. */
  function Leftover(t: string, value: string, k: nat): string
    requires At(Closing(t), t + value, k)
  {
    value[k + 3..]
  }

  lemma SwallowShape(t: string, value: string, k: nat)
    requires IsToken(t) && At(Closing(t), t + value, k) && k < |t|
    ensures k + 3 <= |value|
    ensures forall i :: k <= i < |t| ==> t[i] == t[i - k]
    ensures forall i :: 0 <= i < k + 3 ==> value[i] != '<'
  {
    var m, u := Closing(t), t + value;
    AtInConcat(m, u, "", k);
    assert u + "" == u;
    assert forall i :: k <= i < |t| ==> t[i] == u[i] == m[i - k];
    assert forall i :: 0 <= i < k + 3 ==> value[i] == u[|t| + i] && u[|t| + i] == m[|t| + i - k];
  }

  lemma OpeningAt(t: string, s: string, o: nat)
    requires o + 3 + |t| <= |s|
    requires forall j :: o <= j < o + 3 ==> s[j] == '<'
    requires forall j :: o + 3 <= j < o + 3 + |t| ==> s[j] == t[j - o - 3]
    ensures Occurs(Opening(t), s)
  {
    assert s[o..o + |Opening(t)|] == Opening(t);
    assert At(Opening(t), s, o);
  }

  /** A value swallowed whole by the read that ate its own opening marker still opens a further block. */
  lemma SwallowReopens(t: string, gap: string, value: string, k: nat)
    requires IsToken(t) && At(Closing(t), t + value, k) && k < |t|
    requires (gap + "<<<") + t[..k] == value
    ensures Occurs(Opening(t), Leftover(t, value, k) + Closing(t))
  {
    SwallowShape(t, value, k);
    var x := Leftover(t, value, k);
    assert value[|gap|] == '<';
    assert k + 3 <= |gap| == |x|;
    // the leftover ends with the brackets and the period of the token
    var o, whole := |x| - 3 - k, x + Closing(t);
    assert forall j :: 0 <= j < |x| ==> whole[j] == x[j] == value[j + k + 3];
    assert forall j :: |x| <= j < |x| + |t| ==> whole[j] == t[j - |x|];
    assert forall j :: |gap| <= j < |value| ==> value[j] == ("<<<" + t[..k])[j - |gap|];
    OpeningAt(t, whole, o);
  }

  /** Reading on from a forged opening marker at the end of `prefix`. */
  lemma ReadForged(t: string, prefix: string, gap: string, tail: string)
    requires Find(Opening(t), prefix + Opening(t) + gap) == |prefix|
    ensures ReadBlocks(t, (prefix + Opening(t) + gap) + tail) == ReadBlock(t, gap + tail)
  {
    FindExtends(Opening(t), prefix + Opening(t) + gap, tail);
    DropThrough(prefix, Opening(t), gap, tail);
  }

  /** Where the reader stands after one block that a forged opening marker began. */
  datatype Resumed =
    | InRun(after: string)       // still before the honest block, with less of the run to read
    | PastToken(after: string)   // the honest opening marker was read as text, and so was part of its value

  /** The reader resumes at `z` with less than `limit` of the run left, or past the honest token. */
  ghost predicate Resumes(t: string, limit: nat, value: string, rest: string, r: seq<string>, z: Resumed) {
    && r != []
    && (z.InRun? ==> |z.after| < limit && ReadBlocks(t, z.after + Honest(value, rest, t)) == Some(r[1..]))
    && (z.PastToken? ==> ReadBlocks(t, (z.after + Closing(t)) + rest) == Some(r[1..]))
    && (z.PastToken? && r[0] == value ==> Occurs(Opening(t), z.after + Closing(t)))
  }

  lemma FirstLacks(t: string, r: seq<string>)
    requires !InAny(t, r)
    ensures r != [] ==> !Occurs(t, r[0])
  {
    assert r != [] ==> r[0] in r;
  }

  lemma SwallowRest(t: string, gap: string, value: string, rest: string, k: nat)
    requires k < |t| && k + 3 <= |value|
    ensures var s, c := gap + Honest(value, rest, t), |gap| + 3 + k;
            && c + |Closing(t)| <= |s|
            && s[..c] == (gap + "<<<") + t[..k]
            && s[c + |Closing(t)|..] == (value[k + 3..] + Closing(t)) + rest
  {
    var s := gap + Honest(value, rest, t);
    assert s == (gap + "<<<") + (t + (value + (Closing(t) + rest)));
    assert s[|gap| + 3 + |t| + k + 3..] == (value + (Closing(t) + rest))[k + 3..];
    assert value + (Closing(t) + rest) == value[..k + 3] + ((value[k + 3..] + Closing(t)) + rest);
  }

  /** One step of the reader just after a forged opening marker. */
  lemma ForgedRead(t: string, gap: string, value: string, rest: string, r: seq<string>) returns (z: Resumed)
    requires IsToken(t)
    requires ReadBlock(t, gap + Honest(value, rest, t)) == Some(r) && !InAny(t, r)
    ensures Resumes(t, |gap| + 1, value, rest, r, z)
  {
    hide Honest, Occurs, ReadBlocks;
    ForgedClose(t, gap, value, rest);
    var s, m := gap + Honest(value, rest, t), Closing(t);
    var c := Find(m, s);
    FirstLacks(t, r);
    assert r[0] == s[..c] && ReadBlocks(t, s[c + |m|..]) == Some(r[1..]);
    if c + |m| <= |gap| {
      z := InRun(gap[c + |m|..]);
      assert s[c + |m|..] == gap[c + |m|..] + Honest(value, rest, t);
    } else {
      var k := c - |gap| - 3;
      SwallowShape(t, value, k);
      z := PastToken(Leftover(t, value, k));
      SwallowRest(t, gap, value, rest, k);
      if r[0] == value { SwallowReopens(t, gap, value, k); }
    }
  }

  lemma ForgedStep(t: string, run: string, value: string, rest: string, r: seq<string>) returns (z: Resumed)
    requires IsToken(t) && Occurs(Opening(t), run)
    requires ReadBlocks(t, run + Honest(value, rest, t)) == Some(r) && !InAny(t, r)
    ensures Resumes(t, |run|, value, rest, r, z)
  {
    var o := Find(Opening(t), run);
    var prefix, gap := run[..o], run[o + |Opening(t)|..];
    assert run == prefix + Opening(t) + gap;
    ReadForged(t, prefix, gap, Honest(value, rest, t));
    z := ForgedRead(t, gap, value, rest, r);
  }

  /** Text before a weave belongs to its first run. */
  lemma ForgeryMerges(gaps: seq<string>, values: seq<string>, t: string, before: string, r: seq<string>)
    requires |gaps| == |values| + 1 && ReadBlocks(t, before + Weave(gaps, values, t)) == Some(r)
    ensures ReadBlocks(t, Weave([before + gaps[0]] + gaps[1..], values, t)) == Some(r)
  {
    var merged := [before + gaps[0]] + gaps[1..];
    assert merged[1..] == gaps[1..];
    if values == [] {
      assert Weave(merged, values, t) == before + Weave(gaps, values, t);
    } else {
      var honest := Honest(values[0], Weave(gaps[1..], values[1..], t), t);
      assert (before + gaps[0]) + honest == before + (gaps[0] + honest);
    }
  }

  lemma HeldByMerged(t: string, before: string, gap: string, gaps: seq<string>)
    requires Occurs(Opening(t), before)
    ensures InAny(Opening(t), [before + gap] + gaps)
  {
    AtLeft(Opening(t), before, gap, Find(Opening(t), before));
    assert before + gap in [before + gap] + gaps;
  }

  /**
   A text run that holds the opening marker makes the reader return too many values or a wrong one:
   whatever it returns, there are at least as many as there were, and they are not the same.
   */
  lemma {:induction false} ForgeryShows(gaps: seq<string>, values: seq<string>, t: string, r: seq<string>)
    requires IsToken(t) && |gaps| == |values| + 1
    requires !InAny(t, values)
    requires ReadBlocks(t, Weave(gaps, values, t)) == Some(r) && !InAny(t, r)
    ensures |values| <= |r|
    ensures InAny(Opening(t), gaps) ==> r != values
    decreases |values|, |gaps[0]|
  {
    if values == [] {
      assert gaps == [gaps[0]];
      return;
    }
    var rest := Weave(gaps[1..], values[1..], t);
    InAnyTail(t, values);
    if r != [] { InAnyTail(t, r); }
    if Occurs(Opening(t), gaps[0]) {
      var z := ForgedStep(t, gaps[0], values[0], rest, r);
      match z {
        case InRun(after) =>
          ForgeryShows([after] + gaps[1..], values, t, r[1..]);
        case PastToken(after) =>
          ForgeryMerges(gaps[1..], values[1..], t, after + Closing(t), r[1..]);
          var merged := [(after + Closing(t)) + gaps[1]] + gaps[2..];
          ForgeryShows(merged, values[1..], t, r[1..]);
          if r[0] == values[0] { HeldByMerged(t, after + Closing(t), gaps[1], gaps[2..]); }
      }
    } else {
      assert values[0] in values;
      ClosingHoldsToken(t, values[0]);
      ReadOne(t, gaps[0], values[0], rest);
      ForgeryShows(gaps[1..], values[1..], t, r[1..]);
      InAnyTail(Opening(t), gaps);
    }
  }

  /**
   Exactly when the round trip holds: for any values that lack the token, the reader recovers them
   if and only if no text run holds the opening marker.
   */
  lemma ReadsBackExactly(gaps: seq<string>, values: seq<string>, t: string)
    requires IsToken(t) && |gaps| == |values| + 1
    requires !InAny(t, values)
    ensures ReadBlocks(t, Weave(gaps, values, t)) == Some(values) <==> !InAny(Opening(t), gaps)
  {
    if !InAny(Opening(t), gaps) {
      ReadsBack(gaps, values, t);
    } else if ReadBlocks(t, Weave(gaps, values, t)) == Some(values) {
      ForgeryShows(gaps, values, t, values);
    }
  }
}
