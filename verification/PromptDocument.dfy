/**
 Rendered prompts as sequences of pieces, and when a format-only reader gets every fenced value back.
 */
module PromptDocument {
  import opened Text
  import opened Fencing

  /**
   Text no caller writes: labels, identifiers, numbers, instants and closed enumeration members.
   All that is used of it is that it holds no `<`.
   */
  type Plain = s: string | '<' !in s witness ""

  /** A piece of a prompt: program text, unfenced free text, or a fenced value. */
  datatype Piece = Closed(words: Plain) | Open(text: string) | Quoted(value: string)

  type Line = seq<Piece>

  function Unfenced(p: Piece): string
    requires !p.Quoted?
  {
    if p.Closed? then p.words else p.text
  }

  function Show(p: Piece, t: string): string {
    match p
    case Closed(s) => s
    case Open(s) => s
    case Quoted(v) => Fence(v, t)
  }

  function Render(ps: seq<Piece>, t: string): string {
    if ps == [] then "" else Show(ps[0], t) + Render(ps[1..], t)
  }

  function Fenced(p: Piece): seq<string> { if p.Quoted? then [p.value] else [] }

  /** The fenced values, in render order. */
  function Values(ps: seq<Piece>): seq<string> {
    if ps == [] then []
    else Fenced(ps[0]) + Values(ps[1..])
  }

  function Exposed(p: Piece): seq<string> { if p.Open? then [p.text] else [] }

  /** The free texts that are rendered without a fence. */
  function OpenTexts(ps: seq<Piece>): seq<string> {
    if ps == [] then []
    else Exposed(ps[0]) + OpenTexts(ps[1..])
  }

  /** The text runs around the fenced values. */
  function Gaps(ps: seq<Piece>): (gaps: seq<string>)
    ensures |gaps| == |Values(ps)| + 1
  {
    if ps == [] then [""]
    else
      var more := Gaps(ps[1..]);
      if ps[0].Quoted? then [""] + more else [Unfenced(ps[0]) + more[0]] + more[1..]
  }

  predicate Separator(c: char) { c == ' ' || c == '\n' }

  predicate Spacer(p: Piece) { p.Closed? && p.words != "" && Separator(p.words[0]) }

  /** Unfenced free text is followed by a blank or a line break of the program's own, if by anything. */
  predicate WellSpaced(ps: seq<Piece>) {
    ps != [] ==>
      && (ps[0].Open? && 1 < |ps| ==> Spacer(ps[1]))
      && WellSpaced(ps[1..])
  }

  lemma Assoc<T>(a: seq<T>, b: seq<T>, c: seq<T>)
    ensures a + (b + c) == (a + b) + c
  {}

  lemma FenceIsHonest(value: string, rest: string, t: string)
    ensures Fence(value, t) + rest == Honest(value, rest, t)
  {
    Assoc(Opening(t) + value, Closing(t), rest);
    Assoc(Opening(t), value, Closing(t) + rest);
  }

  /** Text put before a woven text joins its first run. */
  lemma WeaveExtend(head: string, gaps: seq<string>, values: seq<string>, t: string)
    requires |gaps| == |values| + 1
    ensures head + Weave(gaps, values, t) == Weave([head + gaps[0]] + gaps[1..], values, t)
  {
    if values != [] {
      Assoc(head, gaps[0], Honest(values[0], Weave(gaps[1..], values[1..], t), t));
    }
  }

  lemma WeaveQuoted(value: string, gaps: seq<string>, values: seq<string>, t: string)
    requires |gaps| == |values| + 1
    ensures Weave([""] + gaps, [value] + values, t) == Fence(value, t) + Weave(gaps, values, t)
  {
    assert ([""] + gaps)[1..] == gaps && ([value] + values)[1..] == values;
    FenceIsHonest(value, Weave(gaps, values, t), t);
  }

  lemma {:induction false} RenderIsWeave(ps: seq<Piece>, t: string)
    ensures Render(ps, t) == Weave(Gaps(ps), Values(ps), t)
  {
    if ps != [] {
      RenderIsWeave(ps[1..], t);
      var g, v := Gaps(ps[1..]), Values(ps[1..]);
      if ps[0].Quoted? {
        WeaveQuoted(ps[0].value, g, v, t);
      } else {
        assert Values(ps) == [] + v == v;
        WeaveExtend(Unfenced(ps[0]), g, v, t);
      }
    }
  }

  /** Where an opening marker may start in `text + after`. */
  lemma MarkerAcross(t: string, p: Piece, after: string)
    requires IsToken(t) && !p.Quoted?
    requires p.Open? && after != "" ==> Separator(after[0])
    ensures Occurs(Opening(t), Unfenced(p) + after) <==> (p.Open? && Occurs(Opening(t), p.text)) || Occurs(Opening(t), after)
  {
    var m, u := Opening(t), Unfenced(p);
    if i :| At(m, after, i) { AtRight(m, u, after, i); }
    if i :| At(m, u, i) {
      AtLeft(m, u, after, i);
      assert u[i] == u[i..i + |m|][0] == '<';
    }
    if i :| At(m, u + after, i) {
      AtInConcat(m, u, after, i);
      assert forall k :: 0 <= k < |m| ==> !Separator(m[k]);
      assert (u + after)[i] == m[0] == '<';
      assert i < |u| < i + |m| ==> (u + after)[|u|] == m[|u| - i];
    }
  }

  /** The runs hold an opening marker exactly when some unfenced free text does. */
  lemma {:induction false} OnlyOpenTextsForge(ps: seq<Piece>, t: string)
    requires IsToken(t) && WellSpaced(ps)
    ensures InAny(Opening(t), Gaps(ps)) <==> InAny(Opening(t), OpenTexts(ps))
    ensures ps != [] && ps[0].Closed? && ps[0].words != "" ==> Gaps(ps)[0] != "" && Gaps(ps)[0][0] == ps[0].words[0]
  {
    if ps != [] {
      var rest := ps[1..];
      OnlyOpenTextsForge(rest, t);
      InAnyTail(Opening(t), Gaps(ps));
      InAnyTail(Opening(t), Gaps(rest));
      assert Gaps(ps)[1..] == if ps[0].Quoted? then Gaps(rest) else Gaps(rest)[1..];
      if ps[0].Open? {
        InAnyTail(Opening(t), OpenTexts(ps));
        assert OpenTexts(ps)[1..] == OpenTexts(rest);
      } else {
        assert OpenTexts(ps) == OpenTexts(rest);
      }
      if !ps[0].Quoted? { MarkerAcross(t, ps[0], Gaps(rest)[0]); }
    }
  }

  // ---------- Whole messages ----------

  /** The wording of the line that announces the markers. */
  datatype Format = Format(lead: string, middle: string)

  const DATA_FORMAT := Format("DATA MARKERS: quotations open with ", " and close with ")
  const REPLY_FORMAT := Format("DATA MARKERS: the reply opens with ", " and closes with ")

  function Header(f: Format, t: string): string { f.lead + Opening(t) + f.middle + Closing(t) }

  function Message(f: Format, t: string, body: seq<Piece>): string {
    Header(f, t) + "\n" + Render(body, t)
  }

  /** The token the first line announces: what stands between the opening brackets and the next blank. */
  ghost function AnnouncedToken(f: Format, message: string): Option<string> {
    if f.lead + "<<<" <= message then
      var rest := message[|f.lead| + 3..];
      if 0 <= Find(" ", rest) then Some(rest[..Find(" ", rest)]) else None
    else None
  }

  /** Read a message back knowing nothing but its format. */
  ghost function ReadMessage(f: Format, message: string): Option<(string, seq<string>)> {
    match AnnouncedToken(f, message)
    case None => None
    case Some(t) =>
      if Header(f, t) + "\n" <= message then
        match ReadBlocks(t, message[|Header(f, t)| + 1..])
        case None => None
        case Some(values) => Some((t, values))
      else None
  }

  lemma AnnouncesToken(f: Format, t: string, after: string)
    requires IsToken(t) && f.middle != "" && f.middle[0] == ' '
    ensures AnnouncedToken(f, Header(f, t) + after) == Some(t)
  {
    var message := Header(f, t) + after;
    var rest := message[|f.lead| + 3..];
    var tail := f.middle + Closing(t) + after;
    assert rest == t + tail;
    FirstCharacter(" ", t);
    FirstMarker(" ", t, tail);
  }

  /** The reader recovers the token and exactly the fenced values, in render order. */
  ghost predicate RoundTrips(f: Format, t: string, body: seq<Piece>) {
    ReadMessage(f, Message(f, t, body)) == Some((t, Values(body)))
  }

  lemma Split(a: string, b: string, c: string)
    ensures a + b + c == a + (b + c)
    ensures a + b <= a + b + c
    ensures (a + b + c)[|a| + |b|..] == c
  {}

  lemma ReadsBody(f: Format, t: string, body: seq<Piece>)
    requires IsToken(t) && f.middle != "" && f.middle[0] == ' '
    ensures RoundTrips(f, t, body) <==> ReadBlocks(t, Render(body, t)) == Some(Values(body))
  {
    AnnouncesToken(f, t, "\n" + Render(body, t));
    Split(Header(f, t), "\n", Render(body, t));
  }

  /**
   Reading a rendered message back. With values that lack the token -- what the derivation
   establishes -- the reader recovers exactly them, in order, if and only if no unfenced free text
   holds the opening marker.
   */
  lemma MessageReadsBack(f: Format, t: string, body: seq<Piece>)
    requires f == DATA_FORMAT || f == REPLY_FORMAT
    requires IsToken(t) && WellSpaced(body) && !InAny(t, Values(body))
    ensures RoundTrips(f, t, body) <==> !InAny(Opening(t), OpenTexts(body))
  {
    ReadsBody(f, t, body);
    RenderIsWeave(body, t);
    OnlyOpenTextsForge(body, t);
    ReadsBackExactly(Gaps(body), Values(body), t);
  }

  // ---------- Lines ----------

  /** Lines joined by line breaks. */
  function Lines(ls: seq<Line>): seq<Piece> {
    if ls == [] then []
    else if |ls| == 1 then ls[0]
    else ls[0] + [Closed("\n")] + Lines(ls[1..])
  }

  function Each(ls: seq<Line>, t: string): (r: seq<string>)
    ensures |r| == |ls|
  {
    seq(|ls|, i requires 0 <= i < |ls| => Render(ls[i], t))
  }

  function Map<A, B>(f: A -> B, xs: seq<A>): seq<B> {
    seq(|xs|, i requires 0 <= i < |xs| => f(xs[i]))
  }

  lemma {:induction false} RenderConcat(a: seq<Piece>, b: seq<Piece>, t: string)
    ensures Render(a + b, t) == Render(a, t) + Render(b, t)
  {
    hide Show;
    if a == [] {
      assert a + b == b;
    } else {
      RenderConcat(a[1..], b, t);
      assert (a + b)[1..] == a[1..] + b;
      Assoc(Show(a[0], t), Render(a[1..], t), Render(b, t));
    }
  }

  lemma {:induction false} ValuesConcat(a: seq<Piece>, b: seq<Piece>)
    ensures Values(a + b) == Values(a) + Values(b)
  {
    if a == [] {
      assert a + b == b;
    } else {
      ValuesConcat(a[1..], b);
      assert (a + b)[1..] == a[1..] + b;
      Assoc(Fenced(a[0]), Values(a[1..]), Values(b));
    }
  }

  lemma {:induction false} OpenTextsConcat(a: seq<Piece>, b: seq<Piece>)
    ensures OpenTexts(a + b) == OpenTexts(a) + OpenTexts(b)
  {
    if a == [] {
      assert a + b == b;
    } else {
      OpenTextsConcat(a[1..], b);
      assert (a + b)[1..] == a[1..] + b;
      Assoc(Exposed(a[0]), OpenTexts(a[1..]), OpenTexts(b));
    }
  }

  lemma {:induction false} SpacedConcat(a: seq<Piece>, b: seq<Piece>)
    requires WellSpaced(a) && WellSpaced(b)
    requires a != [] && a[|a| - 1].Open? && b != [] ==> Spacer(b[0])
    ensures WellSpaced(a + b)
  {
    if a == [] {
      assert a + b == b;
    } else {
      SpacedConcat(a[1..], b);
      assert (a + b)[1..] == a[1..] + b;
    }
  }

  /** What a list of lines fences, line by line. */
  function ValuesOf(ls: seq<Line>): seq<string> {
    if ls == [] then [] else Values(ls[0]) + ValuesOf(ls[1..])
  }

  /** What a list of lines leaves unfenced, line by line. */
  function OpenTextsOf(ls: seq<Line>): seq<string> {
    if ls == [] then [] else OpenTexts(ls[0]) + OpenTextsOf(ls[1..])
  }

  lemma Single(l: Line)
    ensures ValuesOf([l]) == Values(l) && OpenTextsOf([l]) == OpenTexts(l)
  {
    assert [l][1..] == [];
  }

  lemma {:induction false} ValuesOfConcat(a: seq<Line>, b: seq<Line>)
    ensures ValuesOf(a + b) == ValuesOf(a) + ValuesOf(b)
  {
    hide Values;
    if a == [] {
      assert a + b == b;
    } else {
      ValuesOfConcat(a[1..], b);
      assert (a + b)[1..] == a[1..] + b;
      Assoc(Values(a[0]), ValuesOf(a[1..]), ValuesOf(b));
    }
  }

  lemma {:induction false} OpenTextsOfConcat(a: seq<Line>, b: seq<Line>)
    ensures OpenTextsOf(a + b) == OpenTextsOf(a) + OpenTextsOf(b)
  {
    hide OpenTexts;
    if a == [] {
      assert a + b == b;
    } else {
      OpenTextsOfConcat(a[1..], b);
      assert (a + b)[1..] == a[1..] + b;
      Assoc(OpenTexts(a[0]), OpenTextsOf(a[1..]), OpenTextsOf(b));
    }
  }

  lemma Render1(p: Piece, t: string)
    ensures Render([p], t) == Show(p, t)
  {
    assert [p][1..] == [];
  }

  lemma {:induction false} LinesRender(ls: seq<Line>, t: string)
    ensures Render(Lines(ls), t) == Join("\n", Each(ls, t))
  {
    if 1 < |ls| {
      LinesRender(ls[1..], t);
      assert Each(ls, t)[1..] == Each(ls[1..], t);
      RenderConcat(ls[0] + [Closed("\n")], Lines(ls[1..]), t);
      RenderConcat(ls[0], [Closed("\n")], t);
      Render1(Closed("\n"), t);
    }
  }

  lemma Contents1(p: Piece)
    ensures Values([p]) == Fenced(p) && OpenTexts([p]) == Exposed(p) && WellSpaced([p])
  {
    assert [p][1..] == [];
  }

  lemma Broken(l: Line)
    ensures Values(l + [Closed("\n")]) == Values(l)
    ensures OpenTexts(l + [Closed("\n")]) == OpenTexts(l)
  {
    ValuesConcat(l, [Closed("\n")]);
    OpenTextsConcat(l, [Closed("\n")]);
    Contents1(Closed("\n"));
  }

  lemma {:induction false} LinesContents(ls: seq<Line>)
    ensures Values(Lines(ls)) == ValuesOf(ls)
    ensures OpenTexts(Lines(ls)) == OpenTextsOf(ls)
  {
    if |ls| == 1 {
      assert ls == [ls[0]];
      Single(ls[0]);
    } else if 1 < |ls| {
      LinesContents(ls[1..]);
      Broken(ls[0]);
      ValuesConcat(ls[0] + [Closed("\n")], Lines(ls[1..]));
      OpenTextsConcat(ls[0] + [Closed("\n")], Lines(ls[1..]));
    }
  }

  lemma {:induction false} LinesSpaced(ls: seq<Line>)
    requires forall i :: 0 <= i < |ls| ==> WellSpaced(ls[i])
    ensures WellSpaced(Lines(ls))
  {
    if 1 < |ls| {
      LinesSpaced(ls[1..]);
      var first := ls[0] + [Closed("\n")];
      SpacedConcat(ls[0], [Closed("\n")]);
      assert first[|first| - 1] == Closed("\n");
      SpacedConcat(first, Lines(ls[1..]));
    }
  }

  /** The lines of a message as the renderers join them: header first. */
  lemma MessageOfLines(f: Format, t: string, ls: seq<Line>)
    requires ls != []
    ensures Join("\n", [Header(f, t)] + Each(ls, t)) == Message(f, t, Lines(ls))
  {
    LinesRender(ls, t);
    assert ([Header(f, t)] + Each(ls, t))[1..] == Each(ls, t);
  }

  lemma EachAppend(ls: seq<Line>, l: Line, t: string)
    ensures Each(ls + [l], t) == Each(ls, t) + [Render(l, t)]
  {}

  /** One more item of a mapped section. */
  lemma EachMapped<A>(before: seq<Line>, line: A -> Line, xs: seq<A>, i: nat, t: string)
    requires i < |xs|
    ensures Each(before + Map(line, xs[..i + 1]), t) == Each(before + Map(line, xs[..i]), t) + [Render(line(xs[i]), t)]
  {
    assert Map(line, xs[..i + 1]) == Map(line, xs[..i]) + [line(xs[i])];
    Assoc(before, Map(line, xs[..i]), [line(xs[i])]);
    EachAppend(before + Map(line, xs[..i]), line(xs[i]), t);
  }

  lemma EachConcat(a: seq<Line>, b: seq<Line>, t: string)
    ensures Each(a + b, t) == Each(a, t) + Each(b, t)
  {}

  /** A heading: a blank line and a label. */
  function Heading(words: Plain): seq<Line> { [[], [Closed(words)]] }

  lemma RenderHeading(words: Plain, t: string)
    ensures Each(Heading(words), t) == ["", words]
  {
    Render1(Closed(words), t);
  }

  // ---------- Per-item contents ----------

  function Flatten<A>(f: A -> seq<string>, xs: seq<A>): seq<string> {
    if xs == [] then [] else f(xs[0]) + Flatten(f, xs[1..])
  }

  lemma {:induction false} FlattenAppend<A>(f: A -> seq<string>, xs: seq<A>, x: A)
    ensures Flatten(f, xs + [x]) == Flatten(f, xs) + f(x)
  {
    if xs == [] {
      assert [x][1..] == [];
    } else {
      FlattenAppend(f, xs[1..], x);
      assert (xs + [x])[1..] == xs[1..] + [x];
      Assoc(f(xs[0]), Flatten(f, xs[1..]), f(x));
    }
  }

  lemma FlattenStep<A>(f: A -> seq<string>, xs: seq<A>, i: nat)
    requires i < |xs|
    ensures Flatten(f, xs[..i + 1]) == Flatten(f, xs[..i]) + f(xs[i])
  {
    FlattenAppend(f, xs[..i], xs[i]);
    assert xs[..i + 1] == xs[..i] + [xs[i]];
  }

  lemma {:induction false} FlattenPermutes<A(!new)>(f: A -> seq<string>, g: A -> seq<string>, xs: seq<A>)
    requires forall x :: multiset(f(x)) == multiset(g(x))
    ensures multiset(Flatten(f, xs)) == multiset(Flatten(g, xs))
  {
    if xs != [] { FlattenPermutes(f, g, xs[1..]); }
  }

  /** `", ".join(...)` of closed vocabulary. */
  function PlainJoin(sep: Plain, words: seq<Plain>): (r: Plain)
    ensures r == Join(sep, words)
  {
    if words == [] then ""
    else if |words| == 1 then words[0]
    else words[0] + sep + PlainJoin(sep, words[1..])
  }

  /** What some lines fence, what they leave unfenced, and that each is well spaced. */
  ghost predicate Holds(ls: seq<Line>, fenced: seq<string>, exposed: seq<string>) {
    && ValuesOf(ls) == fenced
    && OpenTextsOf(ls) == exposed
    && forall i :: 0 <= i < |ls| ==> WellSpaced(ls[i])
  }

  lemma HoldsLine(l: Line)
    requires WellSpaced(l)
    ensures Holds([l], Values(l), OpenTexts(l))
  {
    Single(l);
  }

  lemma HoldsConcat(a: seq<Line>, b: seq<Line>, va: seq<string>, oa: seq<string>, vb: seq<string>, ob: seq<string>)
    requires Holds(a, va, oa) && Holds(b, vb, ob)
    ensures Holds(a + b, va + vb, oa + ob)
  {
    ValuesOfConcat(a, b);
    OpenTextsOfConcat(a, b);
  }

  /** Lines joined into one multi-line item. */
  lemma HoldsJoined(ls: seq<Line>, fenced: seq<string>, exposed: seq<string>)
    requires Holds(ls, fenced, exposed)
    ensures Holds([Lines(ls)], fenced, exposed)
    ensures Values(Lines(ls)) == fenced && OpenTexts(Lines(ls)) == exposed && WellSpaced(Lines(ls))
  {
    LinesContents(ls);
    LinesSpaced(ls);
    HoldsLine(Lines(ls));
  }

  lemma HoldsHeading(words: Plain)
    ensures Holds(Heading(words), [], [])
  {
    Contents1(Closed(words));
    HoldsLine([]);
    HoldsLine([Closed(words)]);
    HoldsConcat([[]], [[Closed(words)]], [], [], [], []);
    assert Heading(words) == [[]] + [[Closed(words)]];
  }

  lemma {:induction false} HoldsMap<A(!new)>(line: A -> Line, fenced: A -> seq<string>, exposed: A -> seq<string>, xs: seq<A>)
    requires forall x :: Holds([line(x)], fenced(x), exposed(x))
    ensures Holds(Map(line, xs), Flatten(fenced, xs), Flatten(exposed, xs))
  {
    if xs != [] {
      HoldsMap(line, fenced, exposed, xs[1..]);
      assert Holds([line(xs[0])], fenced(xs[0]), exposed(xs[0]));
      HoldsConcat([line(xs[0])], Map(line, xs[1..]),
        fenced(xs[0]), exposed(xs[0]), Flatten(fenced, xs[1..]), Flatten(exposed, xs[1..]));
      assert Map(line, xs) == [line(xs[0])] + Map(line, xs[1..]);
    }
  }

  /** The same for items that render to several lines. */
  function Chained<A>(block: A -> seq<Line>, xs: seq<A>): seq<Line> {
    if xs == [] then [] else block(xs[0]) + Chained(block, xs[1..])
  }

  lemma {:induction false} ChainedAppend<A>(block: A -> seq<Line>, xs: seq<A>, x: A)
    ensures Chained(block, xs + [x]) == Chained(block, xs) + block(x)
  {
    if xs == [] {
      assert [x][1..] == [];
    } else {
      ChainedAppend(block, xs[1..], x);
      assert (xs + [x])[1..] == xs[1..] + [x];
      Assoc(block(xs[0]), Chained(block, xs[1..]), block(x));
    }
  }

  lemma {:induction false} HoldsChained<A(!new)>(
    block: A -> seq<Line>, fenced: A -> seq<string>, exposed: A -> seq<string>, xs: seq<A>)
    requires forall x :: Holds(block(x), fenced(x), exposed(x))
    ensures Holds(Chained(block, xs), Flatten(fenced, xs), Flatten(exposed, xs))
  {
    if xs != [] {
      HoldsChained(block, fenced, exposed, xs[1..]);
      assert Holds(block(xs[0]), fenced(xs[0]), exposed(xs[0]));
      HoldsConcat(block(xs[0]), Chained(block, xs[1..]),
        fenced(xs[0]), exposed(xs[0]), Flatten(fenced, xs[1..]), Flatten(exposed, xs[1..]));
    }
  }

  /** Nothing unfenced. */
  function Nothing<A>(x: A): seq<string> { [] }

  lemma {:induction false} FlattenNothing<A>(xs: seq<A>)
    ensures Flatten<A>(Nothing, xs) == []
  {
    if xs != [] { FlattenNothing(xs[1..]); }
  }

  lemma SameMembers(a: seq<string>, b: seq<string>)
    requires multiset(a) == multiset(b)
    ensures forall v :: v in a <==> v in b
  {
    assert forall v :: v in a <==> v in multiset(a);
    assert forall v :: v in b <==> v in multiset(b);
  }

  lemma {:induction false} LastValue(ps: seq<Piece>)
    requires ps != [] && ps[|ps| - 1].Quoted?
    ensures Values(ps) != []
  {
    if 1 < |ps| { LastValue(ps[1..]); }
  }

  lemma {:induction false} LastGapEmpty(ps: seq<Piece>)
    requires ps != [] && ps[|ps| - 1].Quoted?
    ensures Gaps(ps)[|Gaps(ps)| - 1] == ""
  {
    if |ps| == 1 {
      assert ps[1..] == [];
    } else {
      var gaps, more := Gaps(ps), Gaps(ps[1..]);
      assert gaps == if ps[0].Quoted? then [""] + more else [Unfenced(ps[0]) + more[0]] + more[1..];
      LastGapEmpty(ps[1..]);
      LastValue(ps[1..]);
      assert 1 < |more|;
      hide Gaps, Values, Unfenced;
      assert gaps[|gaps| - 1] == more[|more| - 1];
    }
  }

  lemma {:induction false} LinesEnd(ls: seq<Line>)
    requires ls != [] && ls[|ls| - 1] != []
    ensures Lines(ls) != [] && Lines(ls)[|Lines(ls)| - 1] == ls[|ls| - 1][|ls[|ls| - 1]| - 1]
  {
    if 1 < |ls| { LinesEnd(ls[1..]); }
  }

  // ---------- Short lines, unfolded ----------

  lemma Render2(p: Piece, q: Piece, t: string)
    ensures Render([p, q], t) == Show(p, t) + Show(q, t)
  {
    assert [p, q][1..] == [q];
    Render1(q, t);
  }

  lemma Render3(p: Piece, q: Piece, r: Piece, t: string)
    ensures Render([p, q, r], t) == Show(p, t) + Show(q, t) + Show(r, t)
  {
    assert [p, q, r] == [p, q] + [r];
    RenderConcat([p, q], [r], t);
    Render2(p, q, t);
    Render1(r, t);
  }

  lemma Contents2(p: Piece, q: Piece)
    ensures Values([p, q]) == Fenced(p) + Fenced(q) && OpenTexts([p, q]) == Exposed(p) + Exposed(q)
    ensures WellSpaced([p, q]) <==> p.Open? ==> Spacer(q)
  {
    assert [p, q][1..] == [q];
    Contents1(q);
  }

  lemma Contents3(p: Piece, q: Piece, r: Piece)
    ensures Values([p, q, r]) == Fenced(p) + (Fenced(q) + Fenced(r))
    ensures OpenTexts([p, q, r]) == Exposed(p) + (Exposed(q) + Exposed(r))
    ensures WellSpaced([p, q, r]) <==> (p.Open? ==> Spacer(q)) && (q.Open? ==> Spacer(r))
  {
    assert [p, q, r][1..] == [q, r];
    Contents2(q, r);
  }

  lemma Contents4(p: Piece, q: Piece, r: Piece, s: Piece)
    ensures Values([p, q, r, s]) == Fenced(p) + (Fenced(q) + (Fenced(r) + Fenced(s)))
    ensures OpenTexts([p, q, r, s]) == Exposed(p) + (Exposed(q) + (Exposed(r) + Exposed(s)))
    ensures WellSpaced([p, q, r, s]) <==> (p.Open? ==> Spacer(q)) && (q.Open? ==> Spacer(r)) && (r.Open? ==> Spacer(s))
  {
    assert [p, q, r, s][1..] == [q, r, s];
    Contents3(q, r, s);
  }

  lemma Render5(p: Piece, q: Piece, r: Piece, s: Piece, u: Piece, t: string)
    ensures Render([p, q, r, s, u], t) == Show(p, t) + Show(q, t) + Show(r, t) + (Show(s, t) + Show(u, t))
  {
    assert [p, q, r, s, u] == [p, q, r] + [s, u];
    RenderConcat([p, q, r], [s, u], t);
    Render3(p, q, r, t);
    Render2(s, u, t);
  }

  lemma Contents5(p: Piece, q: Piece, r: Piece, s: Piece, u: Piece)
    ensures Values([p, q, r, s, u]) == Fenced(p) + (Fenced(q) + (Fenced(r) + (Fenced(s) + Fenced(u))))
    ensures OpenTexts([p, q, r, s, u]) == Exposed(p) + (Exposed(q) + (Exposed(r) + (Exposed(s) + Exposed(u))))
    ensures WellSpaced([p, q, r, s, u]) <==>
            (p.Open? ==> Spacer(q)) && (q.Open? ==> Spacer(r)) && (r.Open? ==> Spacer(s)) && (s.Open? ==> Spacer(u))
  {
    assert [p, q, r, s, u][1..] == [q, r, s, u];
    Contents4(q, r, s, u);
  }
}
