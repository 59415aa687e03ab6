/** Identifiers, digests and instants with one canonical text each, read back by comparison with it. */
module Identifiers {
  import opened Text

  predicate AllLowerHex(s: string) { forall i :: 0 <= i < |s| ==> LowerHex(s[i]) }

  /** A UUID by its 32 hexadecimal digits. */
  type Uuid = h: string | |h| == 32 && AllLowerHex(h) witness seq(32, _ => '0')

  /** The text form of section 4 of RFC 9562, in lower case. */
  function PrintUuid(u: Uuid): string {
    u[..8] + "-" + u[8..12] + "-" + u[12..16] + "-" + u[16..20] + "-" + u[20..]
  }

  predicate HyphenAt(i: int) { i == 8 || i == 13 || i == 18 || i == 23 }

  predicate UuidText(s: string) {
    |s| == 36 && forall i :: 0 <= i < 36 ==> if HyphenAt(i) then s[i] == '-' else LowerHex(s[i])
  }

  function Unhyphened(s: string): (r: string)
    requires UuidText(s)
    ensures |r| == 32 && AllLowerHex(r)
  {
    s[..8] + s[9..13] + s[14..18] + s[19..23] + s[24..]
  }

  lemma PrintedIsUuidText(u: Uuid)
    ensures UuidText(PrintUuid(u)) && Unhyphened(PrintUuid(u)) == u
  {
    var p := PrintUuid(u);
    assert forall i :: 0 <= i < 8 ==> p[i] == u[i];
    assert p[9..13] == u[8..12] && p[14..18] == u[12..16] && p[19..23] == u[16..20] && p[24..] == u[20..];
    assert forall i :: 9 <= i < 13 ==> p[i] == u[i - 1];
    assert forall i :: 14 <= i < 18 ==> p[i] == u[i - 2];
    assert forall i :: 19 <= i < 23 ==> p[i] == u[i - 3];
    assert forall i :: 24 <= i < 36 ==> p[i] == u[i - 4];
  }

  lemma UuidTextIsPrinted(s: string)
    requires UuidText(s)
    ensures PrintUuid(Unhyphened(s)) == s
  {
    var h := Unhyphened(s);
    assert h[..8] == s[..8] && h[8..12] == s[9..13] && h[12..16] == s[14..18] && h[16..20] == s[19..23] && h[20..] == s[24..];
  }

  /** The printed forms are exactly the texts of the grammar, and printing loses nothing. */
  lemma UuidGrammar(s: string, u: Uuid)
    ensures UuidText(PrintUuid(u)) && Unhyphened(PrintUuid(u)) == u
    ensures UuidText(s) ==> PrintUuid(Unhyphened(s)) == s
  {
    PrintedIsUuidText(u);
    if UuidText(s) { UuidTextIsPrinted(s); }
  }

  /** `[A-Z][A-Z0-9_]{1,31}` */
  predicate NamespaceText(s: string) {
    && 2 <= |s| <= 32 && 'A' <= s[0] <= 'Z'
    && forall i :: 0 < i < |s| ==> 'A' <= s[i] <= 'Z' || IsDigit(s[i]) || s[i] == '_'
  }

  type Namespace = s: string | NamespaceText(s) witness "AA"

  /** `sha256:[0-9a-f]{64}` */
  predicate DigestText(s: string) { |s| == 71 && s[..7] == "sha256:" && AllLowerHex(s[7..]) }

  function DigestOf(h: string): (s: string)
    requires |h| == 64 && AllLowerHex(h)
    ensures DigestText(s)
  {
    assert ("sha256:" + h)[7..] == h;
    "sha256:" + h
  }

  type Digest = s: string | DigestText(s) witness DigestOf(seq(64, _ => '0'))

  // ---------- Instants ----------

  predicate Leap(year: int) { year % 4 == 0 && (year % 100 != 0 || year % 400 == 0) }

  function DaysIn(year: int, month: int): int {
    if month == 2 then (if Leap(year) then 29 else 28)
    else if month == 4 || month == 6 || month == 9 || month == 11 then 30
    else 31
  }

  /** An aware UTC instant to the microsecond. */
  datatype Moment = Moment(year: nat, month: nat, day: nat, hour: nat, minute: nat, second: nat, micros: nat)

  type Instant = m: Moment |
      && 1 <= m.year <= 9999 && 1 <= m.month <= 12 && 1 <= m.day <= DaysIn(m.year, m.month)
      && m.hour < 24 && m.minute < 60 && m.second < 60 && m.micros < 1_000_000
    witness Moment(1970, 1, 1, 0, 0, 0, 0)

  predicate AllDigits(s: string) { forall i :: 0 <= i < |s| ==> IsDigit(s[i]) }

  /** The last `width` decimal digits of `n`. */
  function Pad(n: nat, width: nat): (s: string)
    ensures |s| == width && AllDigits(s)
  {
    if width == 0 then "" else Pad(n / 10, width - 1) + [Digit(n % 10)]
  }

  function DateAndTime(t: Instant): (s: string)
    ensures |s| == 19
  {
    Pad(t.year, 4) + "-" + Pad(t.month, 2) + "-" + Pad(t.day, 2) + "T" +
    Pad(t.hour, 2) + ":" + Pad(t.minute, 2) + ":" + Pad(t.second, 2)
  }

  /** Six fractional digits and a Z suffix. */
  function FormatUtc(t: Instant): string { DateAndTime(t) + "." + Pad(t.micros, 6) + "Z" }

  function Pow10(w: nat): nat { if w == 0 then 1 else 10 * Pow10(w - 1) }

  lemma {:induction false} PadInjective(a: nat, b: nat, width: nat)
    requires a < Pow10(width) && b < Pow10(width) && Pad(a, width) == Pad(b, width)
    ensures a == b
  {
    if 0 < width {
      var p, q := Pad(a / 10, width - 1), Pad(b / 10, width - 1);
      assert Pad(a, width)[..width - 1] == p && Pad(b, width)[..width - 1] == q;
      assert Pad(a, width)[width - 1] == Digit(a % 10) && Pad(b, width)[width - 1] == Digit(b % 10);
      PadInjective(a / 10, b / 10, width - 1);
    }
  }

  lemma PadsMatch(t: Instant, u: Instant)
    requires Pad(t.year, 4) == Pad(u.year, 4) && Pad(t.month, 2) == Pad(u.month, 2) && Pad(t.day, 2) == Pad(u.day, 2)
    requires Pad(t.hour, 2) == Pad(u.hour, 2) && Pad(t.minute, 2) == Pad(u.minute, 2) && Pad(t.second, 2) == Pad(u.second, 2)
    requires Pad(t.micros, 6) == Pad(u.micros, 6)
    ensures t == u
  {
    hide Pad;
    assert Pow10(2) == 100;
    assert Pow10(4) == 10_000;
    assert Pow10(6) == 1_000_000;
    PadInjective(t.year, u.year, 4);
    PadInjective(t.month, u.month, 2);
    PadInjective(t.day, u.day, 2);
    PadInjective(t.hour, u.hour, 2);
    PadInjective(t.minute, u.minute, 2);
    PadInjective(t.second, u.second, 2);
    PadInjective(t.micros, u.micros, 6);
  }

  lemma DateFields(t: Instant)
    ensures var s := DateAndTime(t);
            && s[..4] == Pad(t.year, 4) && s[5..7] == Pad(t.month, 2) && s[8..10] == Pad(t.day, 2)
            && s[11..13] == Pad(t.hour, 2) && s[14..16] == Pad(t.minute, 2) && s[17..19] == Pad(t.second, 2)
  {
    hide Pad;
  }

  /** Two instants that print alike are equal. */
  lemma FormatUtcInjective(t: Instant, u: Instant)
    ensures FormatUtc(t) == FormatUtc(u) ==> t == u
  {
    hide Pad, DateAndTime;
    if FormatUtc(t) == FormatUtc(u) {
      assert FormatUtc(t)[..19] == DateAndTime(t) && FormatUtc(u)[..19] == DateAndTime(u);
      assert FormatUtc(t)[20..26] == Pad(t.micros, 6) && FormatUtc(u)[20..26] == Pad(u.micros, 6);
      DateFields(t);
      DateFields(u);
      PadsMatch(t, u);
    }
  }

  /** `s.rsplit(".", maxsplit=1)[1]` */
  function AfterLastDot(s: string): (r: string)
    requires '.' in s
    ensures |r| < |s| && r == s[|s| - |r|..] && s[|s| - |r| - 1] == '.' && '.' !in r
  {
    if '.' in s[1..] then AfterLastDot(s[1..]) else s[1..]
  }

  /** The two parsers of the Python library the readers rest on; both accept more than one spelling. */
  datatype Library = Library(uuid: string -> Option<Uuid>, isoformat: string -> Option<Instant>)

  function Offsetted(s: string): string
    requires s != ""
  {
    s[..|s| - 1] + "+00:00"
  }

  /** All that is asked of the parsers: they read what the library itself prints. */
  ghost predicate Lawful(lib: Library) {
    && (forall u: Uuid :: lib.uuid(PrintUuid(u)) == Some(u))
    && (forall t: Instant :: lib.isoformat(Offsetted(FormatUtc(t))) == Some(t))
  }

  function ParseUtc(lib: Library, s: string): Option<Instant> {
    if |s| < 8 || s[|s| - 1] != 'Z' || '.' !in s then None
    else
      var tail := AfterLastDot(s);
      if tail == "" || |tail| - 1 != 6 || !AllDigits(tail[..|tail| - 1]) then None
      else
        match lib.isoformat(Offsetted(s))
        case None => None
        case Some(t) => if FormatUtc(t) == s then Some(t) else None
  }

  lemma FractionOf(before: string, fraction: string)
    requires AllDigits(fraction)
    ensures var s := before + "." + fraction + "Z";
            '.' in s && s[|s| - 1] == 'Z' && AfterLastDot(s) == fraction + "Z"
  {
    var s := before + "." + fraction + "Z";
    assert s[|before|] == '.';
    var tail := AfterLastDot(s);
    assert forall i :: |before| < i < |s| ==> s[i] != '.';
    assert |s| - |tail| - 1 <= |before|;
    assert forall i :: |s| - |tail| <= i < |s| ==> s[i] == tail[i - (|s| - |tail|)];
    assert |tail| == |s| - |before| - 1;
    assert s[|before| + 1..] == fraction + "Z";
  }

  /** An instant is accepted in exactly one spelling. */
  lemma ParseUtcExact(lib: Library, s: string, t: Instant)
    requires Lawful(lib)
    ensures ParseUtc(lib, s) == Some(t) <==> s == FormatUtc(t)
  {
    if s == FormatUtc(t) {
      FractionOf(DateAndTime(t), Pad(t.micros, 6));
      assert lib.isoformat(Offsetted(FormatUtc(t))) == Some(t);
    }
  }

  /** `str(UUID(value)) == value`, or a refusal. */
  function ParseUuid(lib: Library, s: string): Option<Uuid> {
    match lib.uuid(s)
    case None => None
    case Some(u) => if PrintUuid(u) == s then Some(u) else None
  }

  /** However liberal the library parser is, an identifier is accepted in exactly one spelling. */
  lemma ParseUuidExact(lib: Library, s: string, u: Uuid)
    requires Lawful(lib)
    ensures ParseUuid(lib, s) == Some(u) <==> s == PrintUuid(u)
    ensures ParseUuid(lib, s).Some? <==> UuidText(s)
  {
    UuidGrammar(s, u);
    if UuidText(s) { assert lib.uuid(PrintUuid(Unhyphened(s))) == Some(Unhyphened(s)); }
    if ParseUuid(lib, s).Some? { UuidGrammar(s, lib.uuid(s).value); }
  }
}
