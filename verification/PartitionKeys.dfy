/** The partition-key grammar, and which keys the policy patterns match. */
module PartitionKeys {
  import opened Text
  import opened Iam

  /** A key segment never holds the reserved separator. */
  type Segment = s: string | '#' !in s witness ""

  /** A family name is a segment that means only itself inside a pattern. */
  type Name = s: string | '#' !in s && Literal(s) witness ""

  const NAMED: seq<string> :=
    ["VIEW", "VIEW_CURRENT", "ACTION", "ACTION_CURRENT", "EXECUTION", "OUTBOUND_MESSAGE", "CASE", "FENCE"]

  type OtherName = s: string | '#' !in s && s !in NAMED witness ""

  /** The families the policies name; any other segment is a family too. */
  datatype Family =
    | ViewFamily | ViewCurrentFamily | ActionFamily | ActionCurrentFamily
    | ExecutionFamily | OutboundMessageFamily | CaseFamily | FenceFamily
    | OtherFamily(name: OtherName)

  type NamedFamily = f: Family | !f.OtherFamily? witness ViewFamily

  function FamilyName(f: Family): Segment {
    match f
    case ViewFamily => "VIEW"
    case ViewCurrentFamily => "VIEW_CURRENT"
    case ActionFamily => "ACTION"
    case ActionCurrentFamily => "ACTION_CURRENT"
    case ExecutionFamily => "EXECUTION"
    case OutboundMessageFamily => "OUTBOUND_MESSAGE"
    case CaseFamily => "CASE"
    case FenceFamily => "FENCE"
    case OtherFamily(name) => name
  }

  /** Eight names told apart by their lengths, but for two that differ in the first letter. */
  lemma FamilyNamesDiffer(f: Family, g: Family)
    ensures FamilyName(f) == FamilyName(g) ==> f == g
  {
    assert "VIEW"[0] == 'V' && "CASE"[0] == 'C';
    forall i, j | 0 <= i < j < 8 ensures NAMED[i] != NAMED[j] {
      assert |NAMED[i]| != |NAMED[j]| || (i == 0 && j == 6);
    }
    assert !f.OtherFamily? ==> FamilyName(f) in NAMED;
    assert !g.OtherFamily? ==> FamilyName(g) in NAMED;
  }

  /** `NS#n`, `NS#n#CLOCK` and `NS#n#FAMILY#id`. */
  datatype PartitionKey = Control(ns: Segment) | Clock(ns: Segment) | Item(ns: Segment, family: Family, id: Segment)

  function ItemTail(ns: Segment, family: Segment, id: Segment): string { ns + "#" + family + "#" + id }

  function KeyText(k: PartitionKey): string {
    match k
    case Control(ns) => "NS#" + ns
    case Clock(ns) => "NS#" + (ns + "#CLOCK")
    case Item(ns, family, id) => "NS#" + ItemTail(ns, FamilyName(family), id)
  }

  /** `NS#*#FAMILY#*`. */
  function FamilyPattern(family: Name): string { "NS#*#" + family + "#*" }

  const DEMO_CLOCK: string := "NS#DEMO#CLOCK"
  const DEMO_CONTROL: string := "NS#DEMO"

  /** A literal run and a star match from where the run stands. */
  lemma LiteralThenStar(p: string, s: string, k: nat)
    requires Literal(p) && k <= |s|
    ensures Glob(p + "*", s[k..]) <==> At(p, s, k)
  {
    hide Glob;
    GlobLiteral(p, "*", s[k..]);
    if p <= s[k..] {
      GlobAny(s[k..][|p|..]);
      assert s[k..][..|p|] == s[k..k + |p|];
    }
    if At(p, s, k) { assert s[k..][..|p|] == s[k..k + |p|]; }
  }

  /** The family pattern holds exactly of texts with the delimited family name after the prefix. */
  lemma FamilyPatternMeans(family: Name, s: string)
    ensures Glob(FamilyPattern(family), s) <==> "NS#" <= s && Occurs("#" + family + "#", s[3..])
  {
    hide Glob;
    var inner := "#" + family + "#";
    assert FamilyPattern(family) == "NS#" + ("*" + (inner + "*"));
    GlobLiteral("NS#", "*" + (inner + "*"), s);
    if "NS#" <= s {
      var t := s[3..];
      GlobStar(inner + "*", t);
      forall k | 0 <= k <= |t| ensures Glob(inner + "*", t[k..]) <==> At(inner, t, k) {
        LiteralThenStar(inner, t, k);
      }
    }
  }

  /** A delimited name stands where two separators enclose it. */
  lemma DelimitedAt(name: string, s: string, i: int)
    ensures At("#" + name + "#", s, i) <==>
            && 0 <= i && i + |name| + 2 <= |s|
            && s[i] == s[i + |name| + 1] == '#' && s[i + 1..i + 1 + |name|] == name
  {
    var m := "#" + name + "#";
    if 0 <= i && i + |name| + 2 <= |s| {
      var part := s[i..i + |m|];
      assert part == [s[i]] + s[i + 1..i + 1 + |name|] + [s[i + |name| + 1]];
      assert m[0] == m[|name| + 1] == '#' && m[1..|name| + 1] == name;
      assert part[0] == s[i] && part[|name| + 1] == s[i + |name| + 1] && part[1..|name| + 1] == s[i + 1..i + 1 + |name|];
    }
  }

  /** In `ns#family#id` there are two separators, around the family. */
  lemma TailSeparators(ns: Segment, family: Segment, id: Segment, i: nat)
    ensures var s, a := ItemTail(ns, family, id), |ns|;
            && |s| == a + 2 + |family| + |id|
            && (i < |s| ==> (s[i] == '#' <==> i == a || i == a + 1 + |family|))
            && s[a + 1..a + 1 + |family|] == family
  {
  }

  /** So a delimited name in it is the family. */
  lemma DelimitedName(ns: Segment, family: Segment, id: Segment, name: Segment)
    ensures Occurs("#" + name + "#", ItemTail(ns, family, id)) <==> name == family
  {
    hide ItemTail, At;
    var m, s := "#" + name + "#", ItemTail(ns, family, id);
    if name == family {
      TailSeparators(ns, family, id, |ns|);
      TailSeparators(ns, family, id, |ns| + 1 + |family|);
      DelimitedAt(name, s, |ns|);
      assert At(m, s, |ns|);
    }
    if i :| At(m, s, i) {
      DelimitedAt(name, s, i);
      TailSeparators(ns, family, id, i);
      TailSeparators(ns, family, id, i + |name| + 1);
    }
  }

  /** A text with at most one separator holds no delimited name. */
  lemma NoDelimitedName(s: string, name: Segment)
    requires forall i, j :: 0 <= i < j < |s| ==> s[i] != '#' || s[j] != '#'
    ensures !Occurs("#" + name + "#", s)
  {
    var m := "#" + name + "#";
    forall i ensures !At(m, s, i) {
      if 0 <= i && i + |m| <= |s| {
        assert s[i..i + |m|][0] == s[i] && s[i..i + |m|][|m| - 1] == s[i + |m| - 1];
        assert m[0] == '#' && m[|m| - 1] == '#';
      }
    }
  }

  /** A family pattern matches a well-formed key exactly when the key's family is the named one. */
  lemma FamilyPatternMatches(f: NamedFamily, k: PartitionKey)
    ensures Literal(FamilyName(f)) && (Glob(FamilyPattern(FamilyName(f)), KeyText(k)) <==> k.Item? && k.family == f)
  {
    var s, family: Name := KeyText(k), FamilyName(f);
    FamilyPatternMeans(family, s);
    match k {
      case Control(ns) =>
        assert s[3..] == ns;
        NoDelimitedName(s[3..], family);
      case Clock(ns) =>
        assert s[3..] == ns + "#CLOCK";
        NoDelimitedName(s[3..], family);
      case Item(ns, g, id) =>
        assert s[3..] == ItemTail(ns, FamilyName(g), id);
        DelimitedName(ns, FamilyName(g), id, family);
        FamilyNamesDiffer(f, g);
    }
  }

  /** How many separators a text holds. */
  function Separators(s: string): nat {
    if s == "" then 0 else (if s[0] == '#' then 1 else 0) + Separators(s[1..])
  }

  lemma {:induction false} SeparatorsAdd(a: string, b: string)
    ensures Separators(a + b) == Separators(a) + Separators(b)
  {
    if a == "" {
      assert a + b == b;
    } else {
      SeparatorsAdd(a[1..], b);
      assert (a + b)[1..] == a[1..] + b;
    }
  }

  lemma {:induction false} NoSeparators(s: Segment)
    ensures Separators(s) == 0
  {
    if s != "" { NoSeparators(s[1..]); }
  }

  /** A prefix up to the first separator is determined by the text. */
  lemma FirstSegment(a: Segment, x: string, b: Segment, y: string)
    requires a + "#" + x == b + "#" + y
    ensures a == b && x == y
  {
    var s := a + "#" + x;
    assert s[|a|] == '#' && s[|b|] == '#';
    assert forall i :: 0 <= i < |a| ==> s[i] == a[i] != '#';
    assert forall i :: 0 <= i < |b| ==> s[i] == b[i] != '#';
    assert |a| == |b|;
    assert s[..|a|] == a && s[..|b|] == b && s[|a| + 1..] == x && s[|b| + 1..] == y;
  }

  lemma FixedSeparators()
    ensures Separators("NS#") == 1 && Separators("#") == 1 && Separators("#CLOCK") == 1
  {
    assert "NS#"[1..] == "S#" && "S#"[1..] == "#" && "#"[1..] == "" && "#CLOCK"[1..] == "CLOCK";
    NoSeparators("CLOCK");
  }

  lemma TailSeparatorCount(ns: Segment, family: Segment, id: Segment)
    ensures Separators(ItemTail(ns, family, id)) == 2
  {
    FixedSeparators();
    hide Separators;
    NoSeparators(ns);
    NoSeparators(family);
    NoSeparators(id);
    SeparatorsAdd(ns + "#" + family + "#", id);
    SeparatorsAdd(ns + "#" + family, "#");
    SeparatorsAdd(ns + "#", family);
    SeparatorsAdd(ns, "#");
  }

  lemma KeySeparators(k: PartitionKey)
    ensures Separators(KeyText(k)) == match k case Control(_) => 1 case Clock(_) => 2 case Item(_, _, _) => 3
  {
    hide Separators, ItemTail, FamilyName;
    NoSeparators(k.ns);
    FixedSeparators();
    match k {
      case Control(ns) => SeparatorsAdd("NS#", ns);
      case Clock(ns) =>
        SeparatorsAdd("NS#", ns + "#CLOCK");
        SeparatorsAdd(ns, "#CLOCK");
      case Item(ns, family, id) =>
        SeparatorsAdd("NS#", ItemTail(ns, FamilyName(family), id));
        TailSeparatorCount(ns, FamilyName(family), id);
    }
  }

  lemma ItemTailInjective(a: Segment, f: Family, x: Segment, b: Segment, g: Family, y: Segment)
    requires ItemTail(a, FamilyName(f), x) == ItemTail(b, FamilyName(g), y)
    ensures a == b && f == g && x == y
  {
    hide FamilyName;
    var m, n := FamilyName(f), FamilyName(g);
    assert ItemTail(a, m, x) == a + "#" + (m + "#" + x);
    assert ItemTail(b, n, y) == b + "#" + (n + "#" + y);
    FirstSegment(a, m + "#" + x, b, n + "#" + y);
    FirstSegment(m, x, n, y);
    FamilyNamesDiffer(f, g);
  }

  /** No two keys print alike: the grammar can be read back. */
  lemma KeyTextInjective(j: PartitionKey, k: PartitionKey)
    requires KeyText(j) == KeyText(k)
    ensures j == k
  {
    hide FamilyName, ItemTail, Separators;
    KeySeparators(j);
    KeySeparators(k);
    assert KeyText(j)[3..] == KeyText(k)[3..];
    match j {
      case Control(ns) => assert KeyText(j)[3..] == ns && KeyText(k)[3..] == k.ns;
      case Clock(ns) =>
        assert KeyText(j)[3..] == ns + "#" + "CLOCK" && KeyText(k)[3..] == k.ns + "#" + "CLOCK";
        FirstSegment(ns, "CLOCK", k.ns, "CLOCK");
      case Item(ns, family, id) =>
        assert KeyText(j)[3..] == ItemTail(ns, FamilyName(family), id);
        assert KeyText(k)[3..] == ItemTail(k.ns, FamilyName(k.family), k.id);
        ItemTailInjective(ns, family, id, k.ns, k.family, k.id);
    }
  }

  lemma DemoKeys(k: PartitionKey)
    ensures KeyText(k) == DEMO_CLOCK <==> k == Clock("DEMO")
    ensures KeyText(k) == DEMO_CONTROL <==> k == Control("DEMO")
  {
    assert KeyText(Clock("DEMO")) == DEMO_CLOCK && KeyText(Control("DEMO")) == DEMO_CONTROL;
    if KeyText(k) == DEMO_CLOCK { KeyTextInjective(k, Clock("DEMO")); }
    if KeyText(k) == DEMO_CONTROL { KeyTextInjective(k, Control("DEMO")); }
  }
}
