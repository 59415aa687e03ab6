/** The Monitor runtime's user message: bounded payload in, fixed labels around fenced blocks out. */
module MonitorPrompt {
  import opened Text
  import opened Fencing
  import opened PromptDocument

  datatype Attachment = Attachment(evidenceId: Plain, mediaType: string, safeCaption: Option<string>)

  datatype ResidentMessage = ResidentMessage(
    messageId: Plain, pseudonym: string, sentAt: Plain, text: string, attachments: seq<Attachment>)

  datatype CaseSummary = CaseSummary(
    caseId: Plain, caseVersion: nat, issueType: Plain, title: string, factSummaries: seq<string>)

  datatype MonitorInput = MonitorInput(
    messages: seq<ResidentMessage>, summaries: seq<CaseSummary>,
    sensitiveCategories: seq<Plain>, issueTypes: seq<Plain>)

  // ---------- What the collision check reads ----------

  function Captions(attachments: seq<Attachment>): seq<string> {
    if attachments == [] then []
    else
      var more := Captions(attachments[1..]);
      match attachments[0].safeCaption
      case Some(caption) => [caption] + more
      case None => more
  }

  function MessageValues(m: ResidentMessage): seq<string> {
    [m.text] + Captions(m.attachments)
  }

  function SummaryValues(s: CaseSummary): seq<string> { [s.title] + s.factSummaries }

  function CheckedValues(p: MonitorInput): seq<string> {
    Flatten(SummaryValues, p.summaries) + Flatten(MessageValues, p.messages)
  }

  lemma {:induction false} CaptionsAppend(xs: seq<Attachment>, x: Attachment)
    ensures Captions(xs + [x]) == Captions(xs) + Captions([x])
  {
    if xs == [] {
      assert [x][1..] == [];
    } else {
      CaptionsAppend(xs[1..], x);
      assert (xs + [x])[1..] == xs[1..] + [x];
      if xs[0].safeCaption.Some? { Assoc([xs[0].safeCaption.value], Captions(xs[1..]), Captions([x])); }
    }
  }

  method AppendMessageValues(values: seq<string>, m: ResidentMessage) returns (more: seq<string>)
    ensures more == values + MessageValues(m)
  {
    more := values + [m.text];
    for j := 0 to |m.attachments|
      invariant more == values + ([m.text] + Captions(m.attachments[..j]))
    {
      CaptionsAppend(m.attachments[..j], m.attachments[j]);
      assert m.attachments[..j + 1] == m.attachments[..j] + [m.attachments[j]];
      if m.attachments[j].safeCaption.Some? { more := more + [m.attachments[j].safeCaption.value]; }
    }
    assert m.attachments[..|m.attachments|] == m.attachments;
  }

  /** Every untrusted string the render places inside a fence. */
  method PayloadValues(p: MonitorInput) returns (values: seq<string>)
    ensures values == CheckedValues(p)
  {
    values := [];
    for i := 0 to |p.summaries|
      invariant values == Flatten(SummaryValues, p.summaries[..i])
    {
      FlattenAppend(SummaryValues, p.summaries[..i], p.summaries[i]);
      assert p.summaries[..i + 1] == p.summaries[..i] + [p.summaries[i]];
      values := values + ([p.summaries[i].title] + p.summaries[i].factSummaries);
    }
    assert p.summaries[..|p.summaries|] == p.summaries;
    ghost var fromSummaries := values;
    for i := 0 to |p.messages|
      invariant values == fromSummaries + Flatten(MessageValues, p.messages[..i])
    {
      FlattenAppend(MessageValues, p.messages[..i], p.messages[i]);
      assert p.messages[..i + 1] == p.messages[..i] + [p.messages[i]];
      Assoc(fromSummaries, Flatten(MessageValues, p.messages[..i]), MessageValues(p.messages[i]));
      values := AppendMessageValues(values, p.messages[i]);
    }
    assert p.messages[..|p.messages|] == p.messages;
  }

  // ---------- What is rendered ----------

  function SummaryLine(s: CaseSummary): Line {
    [Closed("- case_id=" + s.caseId + " version=" + Decimal(s.caseVersion) + " issue_type=" + s.issueType + " title="),
     Quoted(s.title)]
  }

  function FactLine(fact: string): Line { [Closed("    fact: "), Quoted(fact)] }

  const EXISTING_CASES: Plain := "EXISTING CASES YOU MAY EXTEND"

  function AttachmentLine(a: Attachment): Line {
    [Closed("    attachment evidence_id=" + a.evidenceId + " media_type="), Open(a.mediaType)] +
    (match a.safeCaption
     case None => []
     case Some(caption) => [Closed(" caption="), Quoted(caption)])
  }

  function MessageLines(m: ResidentMessage): seq<Line> {
    [[Closed("- message_id=" + m.messageId + " sender="), Open(m.pseudonym), Closed(" sent_at=" + m.sentAt)]] +
    Map(AttachmentLine, m.attachments) +
    [[Closed("    text: "), Quoted(m.text)]]
  }

  function MessageLine(m: ResidentMessage): Line { Lines(MessageLines(m)) }

  function SummaryBlock(s: CaseSummary): seq<Line> { [SummaryLine(s)] + Map(FactLine, s.factSummaries) }

  function IntroLines(p: MonitorInput): seq<Line> {
    [[], [Closed("ALLOWED ISSUE TYPES: " + PlainJoin(", ", p.issueTypes))]] +
    (if p.sensitiveCategories == [] then []
     else [[Closed("SENSITIVE CATEGORIES TO FLAG: " + PlainJoin(", ", p.sensitiveCategories))]])
  }

  function CaseLines(p: MonitorInput): seq<Line> {
    if p.summaries == [] then []
    else Heading(EXISTING_CASES) + Chained(SummaryBlock, p.summaries)
  }

  function MessageSection(p: MonitorInput): seq<Line> { Heading("MESSAGES") + Map(MessageLine, p.messages) }

  function MonitorLines(p: MonitorInput): seq<Line> {
    IntroLines(p) + CaseLines(p) + MessageSection(p)
  }

  function MonitorBody(p: MonitorInput): seq<Piece> { Lines(MonitorLines(p)) }

  // ---------- The renderer ----------

  method RenderAttachment(a: Attachment, fence: string) returns (text: string)
    ensures text == Render(AttachmentLine(a), fence)
  {
    var caption := if a.safeCaption.None? then "" else " caption=" + Fence(a.safeCaption.value, fence);
    text := "    attachment evidence_id=" + a.evidenceId + " media_type=" + a.mediaType + caption;
    ghost var line := AttachmentLine(a);
    RenderConcat(line[..2], line[2..], fence);
    assert line == line[..2] + line[2..];
    Render2(line[0], line[1], fence);
    if a.safeCaption.Some? { Render2(line[2], line[3], fence); }
  }

  method RenderMessageHeader(m: ResidentMessage, fence: string) returns (text: string)
    ensures text == Render(MessageLines(m)[0], fence)
  {
    text := "- message_id=" + m.messageId + " sender=" + m.pseudonym + " sent_at=" + m.sentAt;
    ghost var line := MessageLines(m)[0];
    Render3(line[0], line[1], line[2], fence);
    Assoc("- message_id=" + m.messageId + " sender=" + m.pseudonym, " sent_at=", m.sentAt);
  }

  /** The lines of a message up to an attachment, and the text line after the last. */
  lemma AttachmentNext(m: ResidentMessage, i: nat, fence: string)
    requires i < |m.attachments|
    ensures Each(MessageLines(m)[..2 + i], fence) ==
            Each(MessageLines(m)[..1 + i], fence) + [Render(AttachmentLine(m.attachments[i]), fence)]
  {
    hide AttachmentLine, Render;
    EachAppend(MessageLines(m)[..1 + i], AttachmentLine(m.attachments[i]), fence);
    assert MessageLines(m)[..2 + i] == MessageLines(m)[..1 + i] + [AttachmentLine(m.attachments[i])];
  }

  lemma TextLast(m: ResidentMessage, fence: string)
    ensures Each(MessageLines(m), fence) ==
            Each(MessageLines(m)[..1 + |m.attachments|], fence) + ["    text: " + Fence(m.text, fence)]
  {
    hide AttachmentLine;
    var before, last := MessageLines(m)[..1 + |m.attachments|], [Closed("    text: "), Quoted(m.text)];
    Render2(last[0], last[1], fence);
    hide Render;
    EachAppend(before, last, fence);
    assert MessageLines(m) == before + [last];
  }

  method RenderMessage(m: ResidentMessage, fence: string) returns (text: string)
    ensures text == Render(MessageLine(m), fence)
  {
    hide AttachmentLine, Render, Fence;
    var header := RenderMessageHeader(m, fence);
    var parts := [header];
    for i := 0 to |m.attachments|
      invariant parts == Each(MessageLines(m)[..1 + i], fence)
    {
      var attachment := RenderAttachment(m.attachments[i], fence);
      parts := parts + [attachment];
      AttachmentNext(m, i, fence);
    }
    parts := parts + ["    text: " + Fence(m.text, fence)];
    TextLast(m, fence);
    LinesRender(MessageLines(m), fence);
    text := Join("\n", parts);
  }

  method RenderSummary(s: CaseSummary, fence: string) returns (lines: seq<string>)
    ensures lines == Each(SummaryBlock(s), fence)
  {
    lines := ["- case_id=" + s.caseId + " version=" + Decimal(s.caseVersion) + " issue_type=" + s.issueType +
              " title=" + Fence(s.title, fence)];
    Render2(SummaryLine(s)[0], SummaryLine(s)[1], fence);
    assert SummaryBlock(s)[..1] == [SummaryLine(s)];
    for j := 0 to |s.factSummaries|
      invariant lines == Each(SummaryBlock(s)[..1 + j], fence)
    {
      lines := lines + ["    fact: " + Fence(s.factSummaries[j], fence)];
      Render2(Closed("    fact: "), Quoted(s.factSummaries[j]), fence);
      EachAppend(SummaryBlock(s)[..1 + j], FactLine(s.factSummaries[j]), fence);
      assert SummaryBlock(s)[..2 + j] == SummaryBlock(s)[..1 + j] + [FactLine(s.factSummaries[j])];
    }
  }

  method RenderIntro(p: MonitorInput, fence: string) returns (lines: seq<string>)
    ensures lines == Each(IntroLines(p), fence)
  {
    lines := ["", "ALLOWED ISSUE TYPES: " + Join(", ", p.issueTypes)];
    Render1(IntroLines(p)[1][0], fence);
    if p.sensitiveCategories != [] {
      lines := lines + ["SENSITIVE CATEGORIES TO FLAG: " + Join(", ", p.sensitiveCategories)];
      Render1(IntroLines(p)[2][0], fence);
    }
  }

  method RenderCases(p: MonitorInput, fence: string) returns (lines: seq<string>)
    ensures lines == Each(CaseLines(p), fence)
  {
    hide SummaryBlock, Render;
    lines := [];
    if p.summaries != [] {
      lines := ["", EXISTING_CASES];
      RenderHeading(EXISTING_CASES, fence);
      ghost var heading := Heading(EXISTING_CASES);
      for i := 0 to |p.summaries|
        invariant lines == Each(heading + Chained(SummaryBlock, p.summaries[..i]), fence)
      {
        var block := RenderSummary(p.summaries[i], fence);
        lines := lines + block;
        EachConcat(heading + Chained(SummaryBlock, p.summaries[..i]), SummaryBlock(p.summaries[i]), fence);
        ChainedAppend(SummaryBlock, p.summaries[..i], p.summaries[i]);
        assert p.summaries[..i + 1] == p.summaries[..i] + [p.summaries[i]];
        Assoc(heading, Chained(SummaryBlock, p.summaries[..i]), SummaryBlock(p.summaries[i]));
      }
      assert p.summaries[..|p.summaries|] == p.summaries;
    }
  }

  method RenderMessages(p: MonitorInput, fence: string) returns (lines: seq<string>)
    ensures lines == Each(MessageSection(p), fence)
  {
    var messages := p.messages;
    lines := ["", "MESSAGES"];
    RenderHeading("MESSAGES", fence);
    for i := 0 to |messages|
      invariant lines == Each(Heading("MESSAGES") + Map(MessageLine, messages[..i]), fence)
    {
      var rendered := RenderMessage(messages[i], fence);
      lines := lines + [rendered];
      EachMapped(Heading("MESSAGES"), MessageLine, messages, i, fence);
    }
    assert messages[..|messages|] == messages;
  }

  /** Render the bounded payload as fixed labels around fenced data blocks. */
  method RenderMonitorUserMessage(p: MonitorInput, fence: string) returns (message: string)
    ensures message == Message(DATA_FORMAT, fence, MonitorBody(p))
  {
    var opening, closing := "<<<" + fence, fence + ">>>";
    var header := "DATA MARKERS: quotations open with " + opening + " and close with " + closing;
    var intro := RenderIntro(p, fence);
    var cases := RenderCases(p, fence);
    var messages := RenderMessages(p, fence);
    EachConcat(IntroLines(p), CaseLines(p), fence);
    EachConcat(IntroLines(p) + CaseLines(p), MessageSection(p), fence);
    MessageOfLines(DATA_FORMAT, fence, MonitorLines(p));
    message := Join("\n", [header] + (intro + cases + messages));
  }

  // ---------- The check covers the render, and the message reads back ----------

  function RenderedMessageValues(m: ResidentMessage): seq<string> { Captions(m.attachments) + [m.text] }

  /** The fenced values in render order: captions come before the text they accompany. */
  function RenderedValues(p: MonitorInput): seq<string> {
    Flatten(SummaryValues, p.summaries) + Flatten(RenderedMessageValues, p.messages)
  }

  function MediaType(a: Attachment): seq<string> { [a.mediaType] }

  function UnfencedInMessage(m: ResidentMessage): seq<string> { [m.pseudonym] + Flatten(MediaType, m.attachments) }

  /** The free texts the render leaves unfenced and the collision check does not read. */
  function UnfencedTexts(p: MonitorInput): seq<string> { Flatten(UnfencedInMessage, p.messages) }

  lemma HoldsAttachment(a: Attachment)
    ensures Holds([AttachmentLine(a)], Captions([a]), MediaType(a))
  {
    var line := AttachmentLine(a);
    assert [a][1..] == [];
    if a.safeCaption.None? {
      assert line == [line[0], line[1]];
      Contents2(line[0], line[1]);
    } else {
      assert line == [line[0], line[1], line[2], line[3]];
      Contents4(line[0], line[1], line[2], line[3]);
    }
    HoldsLine(line);
  }

  function Caption(a: Attachment): seq<string> { Captions([a]) }

  lemma {:induction false} FlattenCaptions(attachments: seq<Attachment>)
    ensures Flatten(Caption, attachments) == Captions(attachments)
  {
    if attachments != [] {
      FlattenCaptions(attachments[1..]);
      assert Captions([attachments[0]][1..]) == [];
    }
  }

  lemma HoldsMessageHeader(m: ResidentMessage)
    ensures Holds([MessageLines(m)[0]], [], [m.pseudonym])
  {
    var first := MessageLines(m)[0];
    Contents3(first[0], first[1], first[2]);
    HoldsLine(first);
  }

  lemma HoldsMessage(m: ResidentMessage)
    ensures Holds([MessageLine(m)], RenderedMessageValues(m), UnfencedInMessage(m))
  {
    var ls := MessageLines(m);
    var first, middle, last := ls[0], Map(AttachmentLine, m.attachments), ls[|ls| - 1];
    HoldsMessageHeader(m);
    Contents2(last[0], last[1]);
    HoldsLine(last);
    forall a: Attachment ensures Holds([AttachmentLine(a)], Caption(a), MediaType(a)) { HoldsAttachment(a); }
    HoldsMap(AttachmentLine, Caption, MediaType, m.attachments);
    FlattenCaptions(m.attachments);
    var captions, media := Captions(m.attachments), Flatten(MediaType, m.attachments);
    HoldsConcat([first], middle, [], [m.pseudonym], captions, media);
    HoldsConcat([first] + middle, [last], captions, [m.pseudonym] + media, [m.text], []);
    HoldsJoined(ls, RenderedMessageValues(m), UnfencedInMessage(m));
  }

  function Just(s: string): seq<string> { [s] }

  lemma {:induction false} FlattenJust(xs: seq<string>)
    ensures Flatten(Just, xs) == xs
  {
    if xs != [] { FlattenJust(xs[1..]); }
  }

  lemma HoldsSummary(s: CaseSummary)
    ensures Holds(SummaryBlock(s), SummaryValues(s), [])
  {
    var line := SummaryLine(s);
    Contents2(line[0], line[1]);
    HoldsLine(line);
    forall fact: string ensures Holds([FactLine(fact)], Just(fact), Nothing(fact)) {
      Contents2(FactLine(fact)[0], FactLine(fact)[1]);
      HoldsLine(FactLine(fact));
    }
    HoldsMap(FactLine, Just, Nothing, s.factSummaries);
    FlattenJust(s.factSummaries);
    FlattenNothing(s.factSummaries);
    HoldsConcat([line], Map(FactLine, s.factSummaries), [s.title], [], s.factSummaries, []);
  }

  lemma HoldsSummaries(summaries: seq<CaseSummary>)
    ensures Holds(Chained(SummaryBlock, summaries), Flatten(SummaryValues, summaries), [])
  {
    hide SummaryBlock, SummaryValues, Holds;
    forall s: CaseSummary ensures Holds(SummaryBlock(s), SummaryValues(s), Nothing(s)) { HoldsSummary(s); }
    HoldsChained(SummaryBlock, SummaryValues, Nothing, summaries);
    FlattenNothing(summaries);
  }

  lemma HoldsCases(p: MonitorInput)
    ensures Holds(CaseLines(p), Flatten(SummaryValues, p.summaries), [])
  {
    if p.summaries != [] {
      hide SummaryBlock, SummaryValues, Holds, Chained, Flatten, Heading;
      HoldsSummaries(p.summaries);
      HoldsHeading(EXISTING_CASES);
      var titles := Flatten(SummaryValues, p.summaries);
      HoldsConcat(Heading(EXISTING_CASES), Chained(SummaryBlock, p.summaries), [], [], titles, []);
      assert [] + titles == titles;
    }
  }

  lemma HoldsIntro(p: MonitorInput)
    ensures Holds(IntroLines(p), [], [])
  {
    var types := "ALLOWED ISSUE TYPES: " + PlainJoin(", ", p.issueTypes);
    HoldsHeading(types);
    if p.sensitiveCategories == [] {
      assert IntroLines(p) == Heading(types);
    } else {
      var line := IntroLines(p)[2];
      Contents1(line[0]);
      HoldsLine(line);
      HoldsConcat(Heading(types), [line], [], [], [], []);
      assert IntroLines(p) == Heading(types) + [line];
    }
  }

  lemma HoldsMessages(p: MonitorInput)
    ensures Holds(MessageSection(p), Flatten(RenderedMessageValues, p.messages), UnfencedTexts(p))
  {
    forall m: ResidentMessage ensures Holds([MessageLine(m)], RenderedMessageValues(m), UnfencedInMessage(m)) {
      HoldsMessage(m);
    }
    HoldsMap(MessageLine, RenderedMessageValues, UnfencedInMessage, p.messages);
    HoldsHeading("MESSAGES");
    var rendered := Flatten(RenderedMessageValues, p.messages);
    HoldsConcat(Heading("MESSAGES"), Map(MessageLine, p.messages), [], [], rendered, UnfencedTexts(p));
  }

  /** What the rendered message fences, in order, and what it leaves unfenced. */
  lemma BodyContents(p: MonitorInput)
    ensures Values(MonitorBody(p)) == RenderedValues(p)
    ensures OpenTexts(MonitorBody(p)) == UnfencedTexts(p)
    ensures WellSpaced(MonitorBody(p))
  {
    HoldsIntro(p);
    HoldsCases(p);
    HoldsMessages(p);
    var titles, messages := Flatten(SummaryValues, p.summaries), Flatten(RenderedMessageValues, p.messages);
    HoldsConcat(IntroLines(p), CaseLines(p), [], [], titles, []);
    HoldsConcat(IntroLines(p) + CaseLines(p), MessageSection(p), titles, [], messages, UnfencedTexts(p));
    HoldsJoined(MonitorLines(p), RenderedValues(p), UnfencedTexts(p));
  }

  /** The collision check reads exactly the strings the render fences. */
  lemma CheckCoversRender(p: MonitorInput)
    ensures multiset(Values(MonitorBody(p))) == multiset(CheckedValues(p))
  {
    BodyContents(p);
    FlattenPermutes(MessageValues, RenderedMessageValues, p.messages);
  }

  /**
   With a token the derivation returns, the message reads back as exactly the fenced values if
   and only if no sender pseudonym and no media type holds the opening marker.
   */
  lemma MonitorRoundTrip(p: MonitorInput, t: string)
    requires IsToken(t) && !InAny(t, CheckedValues(p))
    ensures ReadMessage(DATA_FORMAT, Message(DATA_FORMAT, t, MonitorBody(p))) == Some((t, RenderedValues(p))) <==>
            !InAny(Opening(t), UnfencedTexts(p))
  {
    BodyContents(p);
    CheckCoversRender(p);
    SameMembers(Values(MonitorBody(p)), CheckedValues(p));
    MessageReadsBack(DATA_FORMAT, t, MonitorBody(p));
  }
}
