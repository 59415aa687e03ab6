/**
 Strings as the Python sources use them: substring search, `sep.join(parts)`,
 `str(n)` and repeated concatenation.
 */
module Text {

  datatype Option<+T> = None | Some(value: T)

  newtype Byte = x: int | 0 <= x < 256

  type Bytes = seq<Byte>

  /** `p` occurs in `s` starting at offset `i`. */
  predicate At(p: string, s: string, i: int) {
    0 <= i && i + |p| <= |s| && s[i..i + |p|] == p
  }

  ghost predicate Occurs(p: string, s: string) {
    exists i :: At(p, s, i)
  }

  /** `p in s`. */
  predicate Contains(p: string, s: string)
    ensures Contains(p, s) <==> Occurs(p, s)
  {
    assert p <= s <==> At(p, s, 0);
    assert s != "" ==> forall j :: At(p, s, j) && j != 0 ==> At(p, s[1..], j - 1);
    assert s != "" ==> forall j :: At(p, s[1..], j) ==> At(p, s, j + 1);
    p <= s || (s != "" && Contains(p, s[1..]))
  }

  /** Some value holds `p`. */
  ghost predicate InAny(p: string, values: seq<string>) {
    exists v :: v in values && Occurs(p, v)
  }

  lemma InAnyTail(p: string, values: seq<string>)
    requires values != []
    ensures InAny(p, values) <==> Occurs(p, values[0]) || InAny(p, values[1..])
  {
    assert values == [values[0]] + values[1..];
  }

  lemma {:induction false} LeastOccurrence(p: string, s: string, i: int)
    requires At(p, s, i)
    ensures exists j :: At(p, s, j) && forall k :: At(p, s, k) ==> j <= k
    decreases i
  {
    if j :| At(p, s, j) && j < i { LeastOccurrence(p, s, j); }
  }

  /** `s.find(p)`: the first offset at which `p` occurs, or -1. */
  ghost function Find(p: string, s: string): (r: int)
    ensures -1 <= r
    ensures 0 <= r ==> At(p, s, r) && forall j :: At(p, s, j) ==> r <= j
    ensures r < 0 ==> !Occurs(p, s)
  {
    if i :| At(p, s, i) then
      LeastOccurrence(p, s, i);
      var j :| At(p, s, j) && forall k :: At(p, s, k) ==> j <= k;
      j
    else -1
  }

  /** Where an occurrence in `a + b` lies: inside `a`, inside `b`, or across the seam. */
  lemma AtInConcat(p: string, a: string, b: string, i: int)
    requires At(p, a + b, i)
    ensures i + |p| <= |a| ==> At(p, a, i)
    ensures |a| <= i ==> At(p, b, i - |a|)
    ensures forall k :: i <= k < i + |p| ==> (a + b)[k] == p[k - i]
  {
    var s := a + b;
    assert forall k :: i <= k < i + |p| ==> s[k] == s[i..i + |p|][k - i];
    if i + |p| <= |a| { assert a[i..i + |p|] == s[i..i + |p|]; }
    if |a| <= i { assert b[i - |a|..i - |a| + |p|] == s[i..i + |p|]; }
  }

  lemma FirstCharacter(p: string, s: string)
    requires p != ""
    ensures forall i :: At(p, s, i) ==> s[i] == p[0]
  {
    forall i | At(p, s, i) ensures s[i] == p[0] {
      assert s[i..i + |p|][0] == s[i];
    }
  }

  lemma AtLeft(p: string, a: string, b: string, i: int)
    requires At(p, a, i)
    ensures At(p, a + b, i)
  {
    assert (a + b)[i..i + |p|] == a[i..i + |p|];
  }

  lemma AtRight(p: string, a: string, b: string, i: int)
    requires At(p, b, i)
    ensures At(p, a + b, |a| + i)
  {
    assert (a + b)[|a| + i..|a| + i + |p|] == b[i..i + |p|];
  }

  /** More text after the first occurrence does not move it. */
  lemma FindExtends(p: string, s: string, tail: string)
    requires 0 <= Find(p, s)
    ensures Find(p, s + tail) == Find(p, s)
  {
    AtLeft(p, s, tail, Find(p, s));
    AtInConcat(p, s, tail, Find(p, s + tail));
  }

  lemma DropThrough(a: string, b: string, c: string, d: string)
    ensures (a + b + c + d)[|a| + |b|..] == c + d
  {
    assert a + b + c + d == (a + b) + (c + d);
  }

  /** No proper suffix of `m` is a prefix of it, so occurrences of `m` never overlap. */
  ghost predicate Unbordered(m: string) {
    forall d :: 0 < d < |m| ==> m[d..] != m[..|m| - d]
  }

  /** An unbordered marker is found where it was put, not earlier, after any text that lacks it. */
  lemma FirstMarker(m: string, before: string, tail: string)
    requires Unbordered(m) && m <= tail && !Occurs(m, before)
    ensures Find(m, before + tail) == |before|
  {
    var s := before + tail;
    assert At(m, tail, 0);
    AtRight(m, before, tail, 0);
    var j := Find(m, s);
    assert At(m, s, j) && j <= |before|;
    if |before| < j + |m| {
      var d := |before| - j;
      assert m[d..] == s[j..j + |m|][d..] == s[|before|..j + |m|];
      assert m[..|m| - d] == tail[..|m|][..|m| - d] == s[|before|..j + |m|];
    } else if j < |before| {
      AtInConcat(m, before, tail, j);
    }
  }

  /** `sep.join(parts)`. */
  function Join(sep: string, parts: seq<string>): string {
    if parts == [] then ""
    else if |parts| == 1 then parts[0]
    else parts[0] + sep + Join(sep, parts[1..])
  }

  lemma JoinAppend(sep: string, parts: seq<string>, last: string)
    requires parts != []
    ensures Join(sep, parts + [last]) == Join(sep, parts) + sep + last
  {
    if |parts| == 1 {
      assert (parts + [last])[1..] == [last];
    } else {
      JoinAppend(sep, parts[1..], last);
      assert (parts + [last])[1..] == parts[1..] + [last];
      assert parts[0] + sep + (Join(sep, parts[1..]) + sep + last)
          == parts[0] + sep + Join(sep, parts[1..]) + sep + last;
    }
  }

  predicate IsDigit(c: char) { '0' <= c <= '9' }

  /** A hexadecimal digit as digests and identifiers print it. */
  predicate LowerHex(c: char) { IsDigit(c) || 'a' <= c <= 'f' }

  function Digit(d: nat): (c: char)
    requires d < 10
    ensures IsDigit(c) && c as int - '0' as int == d
  {
    (d + '0' as int) as char
  }

  /** `str(n)` for a natural number. */
  function Decimal(n: nat): (s: string)
    ensures s != "" && forall i :: 0 <= i < |s| ==> IsDigit(s[i])
  {
    if n < 10 then [Digit(n)] else Decimal(n / 10) + [Digit(n % 10)]
  }

  /** `int(s)` for a string of ASCII digits. */
  function ParseDecimal(s: string): nat
    requires forall i :: 0 <= i < |s| ==> IsDigit(s[i])
  {
    if s == "" then 0
    else
      assert IsDigit(s[|s| - 1]);
      10 * ParseDecimal(s[..|s| - 1]) + (s[|s| - 1] as int - '0' as int)
  }

  lemma {:induction false} DecimalRoundTrip(n: nat)
    ensures ParseDecimal(Decimal(n)) == n
  {
    if 10 <= n {
      DecimalRoundTrip(n / 10);
      assert Decimal(n)[..|Decimal(n)| - 1] == Decimal(n / 10);
    } else {
      assert Decimal(n)[..0] == "";
    }
  }
}
