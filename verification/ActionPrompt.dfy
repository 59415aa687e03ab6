/** The Action runtime's user message: an unfenced binding block and fenced safe facts. */
module ActionPrompt {
  import opened Text
  import opened Fencing
  import opened PromptDocument

  datatype SafeFact = SafeFact(
    exportFactId: Plain, factType: Plain, evidenceStatus: Plain, contributorCount: nat, safeText: string)

  datatype EvidenceRef = EvidenceRef(refId: Plain, mediaType: string, caption: string)

  datatype ActionInput = ActionInput(
    caseId: Plain, caseVersion: nat, authorizationVersion: nat, viewId: Plain, viewHash: Plain,
    communityLabel: string, destinationLabel: string, purpose: Plain, generatedAt: Plain,
    facts: seq<SafeFact>, evidenceRefs: seq<EvidenceRef>)

  // ---------- What the collision check reads ----------

  function SafeText(f: SafeFact): seq<string> { [f.safeText] }

  function RefCaption(r: EvidenceRef): seq<string> { [r.caption] }

  function CheckedValues(p: ActionInput): seq<string> {
    [p.communityLabel, p.destinationLabel] + Flatten(SafeText, p.facts) + Flatten(RefCaption, p.evidenceRefs)
  }

  /** Every string the render places inside a fence. */
  method PayloadValues(p: ActionInput) returns (values: seq<string>)
    ensures values == CheckedValues(p)
  {
    values := [p.communityLabel, p.destinationLabel];
    ghost var labels := values;
    for i := 0 to |p.facts|
      invariant values == labels + Flatten(SafeText, p.facts[..i])
    {
      FlattenStep(SafeText, p.facts, i);
      values := values + [p.facts[i].safeText];
    }
    assert p.facts[..|p.facts|] == p.facts;
    ghost var before := values;
    for i := 0 to |p.evidenceRefs|
      invariant values == before + Flatten(RefCaption, p.evidenceRefs[..i])
    {
      FlattenStep(RefCaption, p.evidenceRefs, i);
      values := values + [p.evidenceRefs[i].caption];
    }
    assert p.evidenceRefs[..|p.evidenceRefs|] == p.evidenceRefs;
  }

  // ---------- What is rendered ----------

  const BINDING_VALUES: Plain := "BINDING VALUES (copy each into the field "
  const EXACTLY: Plain := "of the same name, exactly as written)"
  const BINDING: Plain := BINDING_VALUES + EXACTLY
  const ATTACHED_SAFE: Plain := "ATTACHED SAFE EVIDENCE (referenced "
  const NO_LINKS: Plain := "by facts; you cannot link to it)"
  const ATTACHED: Plain := ATTACHED_SAFE + NO_LINKS

  /** The five values the answer has to echo, one line each, before anything fenced. */
  function BindingSection(p: ActionInput): seq<Line> {
    Heading(BINDING) +
    [[Closed("- case_id=" + p.caseId)],
     [Closed("- case_version=" + Decimal(p.caseVersion))],
     [Closed("- authorization_version=" + Decimal(p.authorizationVersion))],
     [Closed("- view_id=" + p.viewId)],
     [Closed("- view_hash=" + p.viewHash)]]
  }

  function CommunityLine(p: ActionInput): Line { [Closed("- community: "), Quoted(p.communityLabel)] }

  function RecipientLine(p: ActionInput): Line { [Closed("- recipient organisation: "), Quoted(p.destinationLabel)] }

  function LabelLines(p: ActionInput): seq<Line> { [CommunityLine(p), RecipientLine(p)] }

  function DetailLines(p: ActionInput): seq<Line> {
    [[Closed("- purpose=" + p.purpose)], [Closed("- generated_at=" + p.generatedAt)]]
  }

  function ViewSection(p: ActionInput): seq<Line> {
    Heading("VIEW") + LabelLines(p) + DetailLines(p)
  }

  function FactLine(f: SafeFact): Line {
    [Closed("- export_fact_id=" + f.exportFactId + " type=" + f.factType + " evidence_status=" + f.evidenceStatus +
            " contributors=" + Decimal(f.contributorCount) + "\n    text: "),
     Quoted(f.safeText)]
  }

  function FactSection(p: ActionInput): seq<Line> { Heading("FACTS YOU MAY CITE") + Map(FactLine, p.facts) }

  function RefLine(r: EvidenceRef): Line {
    [Closed("- safe_evidence_ref_id=" + r.refId + " media_type="), Open(r.mediaType),
     Closed("\n    caption: "), Quoted(r.caption)]
  }

  function RefSection(p: ActionInput): seq<Line> {
    if p.evidenceRefs == [] then [] else Heading(ATTACHED) + Map(RefLine, p.evidenceRefs)
  }

  function ActionLines(p: ActionInput): seq<Line> {
    BindingSection(p) + ViewSection(p) + FactSection(p) + RefSection(p)
  }

  function ActionBody(p: ActionInput): seq<Piece> { Lines(ActionLines(p)) }

  // ---------- The renderer ----------

  method RenderBinding(p: ActionInput, fence: string) returns (lines: seq<string>)
    ensures lines == Each(BindingSection(p), fence)
  {
    lines := ["", BINDING,
              "- case_id=" + p.caseId,
              "- case_version=" + Decimal(p.caseVersion),
              "- authorization_version=" + Decimal(p.authorizationVersion),
              "- view_id=" + p.viewId,
              "- view_hash=" + p.viewHash];
    forall i | 1 <= i < 7 ensures Render(BindingSection(p)[i], fence) == BindingSection(p)[i][0].words {
      Render1(BindingSection(p)[i][0], fence);
    }
  }

  method RenderView(p: ActionInput, fence: string) returns (lines: seq<string>)
    ensures lines == Each(ViewSection(p), fence)
  {
    lines := ["", "VIEW",
              "- community: " + Fence(p.communityLabel, fence),
              "- recipient organisation: " + Fence(p.destinationLabel, fence),
              "- purpose=" + p.purpose,
              "- generated_at=" + p.generatedAt];
    var section := ViewSection(p);
    Render1(section[1][0], fence);
    Render2(section[2][0], section[2][1], fence);
    Render2(section[3][0], section[3][1], fence);
    Render1(section[4][0], fence);
    Render1(section[5][0], fence);
  }

  method RenderFacts(p: ActionInput, fence: string) returns (lines: seq<string>)
    ensures lines == Each(FactSection(p), fence)
  {
    lines := ["", "FACTS YOU MAY CITE"];
    RenderHeading("FACTS YOU MAY CITE", fence);
    for i := 0 to |p.facts|
      invariant lines == Each(Heading("FACTS YOU MAY CITE") + Map(FactLine, p.facts[..i]), fence)
    {
      var f := p.facts[i];
      lines := lines + ["- export_fact_id=" + f.exportFactId + " type=" + f.factType + " evidence_status=" +
                        f.evidenceStatus + " contributors=" + Decimal(f.contributorCount) + "\n    text: " +
                        Fence(f.safeText, fence)];
      Render2(FactLine(f)[0], FactLine(f)[1], fence);
      EachMapped(Heading("FACTS YOU MAY CITE"), FactLine, p.facts, i, fence);
    }
    assert p.facts[..|p.facts|] == p.facts;
  }

  method RenderRef(r: EvidenceRef, fence: string) returns (text: string)
    ensures text == Render(RefLine(r), fence)
  {
    text := "- safe_evidence_ref_id=" + r.refId + " media_type=" + r.mediaType + "\n    caption: " + Fence(r.caption, fence);
    ghost var line := RefLine(r);
    assert line == [line[0], line[1], line[2]] + [line[3]];
    RenderConcat([line[0], line[1], line[2]], [line[3]], fence);
    Render3(line[0], line[1], line[2], fence);
    Render1(line[3], fence);
  }

  method RenderRefs(p: ActionInput, fence: string) returns (lines: seq<string>)
    ensures lines == Each(RefSection(p), fence)
  {
    lines := [];
    if p.evidenceRefs != [] {
      lines := ["", ATTACHED];
      RenderHeading(ATTACHED, fence);
      for i := 0 to |p.evidenceRefs|
        invariant lines == Each(Heading(ATTACHED) + Map(RefLine, p.evidenceRefs[..i]), fence)
      {
        var rendered := RenderRef(p.evidenceRefs[i], fence);
        lines := lines + [rendered];
        EachMapped(Heading(ATTACHED), RefLine, p.evidenceRefs, i, fence);
      }
      assert p.evidenceRefs[..|p.evidenceRefs|] == p.evidenceRefs;
    }
  }

  /** Render the compiled view as fixed labels around fenced data blocks. */
  method RenderActionUserMessage(p: ActionInput, fence: string) returns (message: string)
    ensures message == Message(DATA_FORMAT, fence, ActionBody(p))
  {
    var opening, closing := "<<<" + fence, fence + ">>>";
    var header := "DATA MARKERS: quotations open with " + opening + " and close with " + closing;
    var binding := RenderBinding(p, fence);
    var view := RenderView(p, fence);
    var facts := RenderFacts(p, fence);
    var refs := RenderRefs(p, fence);
    EachConcat(BindingSection(p), ViewSection(p), fence);
    EachConcat(BindingSection(p) + ViewSection(p), FactSection(p), fence);
    EachConcat(BindingSection(p) + ViewSection(p) + FactSection(p), RefSection(p), fence);
    MessageOfLines(DATA_FORMAT, fence, ActionLines(p));
    message := Join("\n", [header] + (binding + view + facts + refs));
  }

  // ---------- The check covers the render, and the message reads back ----------

  function RefMediaType(r: EvidenceRef): seq<string> { [r.mediaType] }

  /** The free texts the render leaves unfenced and the collision check does not read. */
  function UnfencedTexts(p: ActionInput): seq<string> { Flatten(RefMediaType, p.evidenceRefs) }

  lemma {:induction false} HoldsClosed(ls: seq<Line>)
    requires forall i :: 0 <= i < |ls| ==> |ls[i]| <= 1 && (ls[i] != [] ==> ls[i][0].Closed?)
    ensures Holds(ls, [], [])
  {
    if ls != [] {
      HoldsClosed(ls[1..]);
      if ls[0] != [] {
        Contents1(ls[0][0]);
        assert ls[0] == [ls[0][0]];
      }
    }
  }

  lemma HoldsLabels(p: ActionInput)
    ensures Holds(LabelLines(p), [p.communityLabel, p.destinationLabel], [])
  {
    var community, recipient := CommunityLine(p), RecipientLine(p);
    Contents2(community[0], community[1]);
    HoldsLine(community);
    Contents2(recipient[0], recipient[1]);
    HoldsLine(recipient);
    HoldsConcat([community], [recipient], [p.communityLabel], [], [p.destinationLabel], []);
    assert LabelLines(p) == [community] + [recipient];
  }

  lemma HoldsView(p: ActionInput)
    ensures Holds(ViewSection(p), [p.communityLabel, p.destinationLabel], [])
  {
    HoldsHeading("VIEW");
    HoldsLabels(p);
    HoldsClosed(DetailLines(p));
    HoldsConcat(Heading("VIEW"), LabelLines(p), [], [], [p.communityLabel, p.destinationLabel], []);
    HoldsConcat(Heading("VIEW") + LabelLines(p), DetailLines(p), [p.communityLabel, p.destinationLabel], [], [], []);
  }

  lemma HoldsFacts(p: ActionInput)
    ensures Holds(FactSection(p), Flatten(SafeText, p.facts), [])
  {
    forall f: SafeFact ensures Holds([FactLine(f)], SafeText(f), Nothing(f)) {
      Contents2(FactLine(f)[0], FactLine(f)[1]);
      HoldsLine(FactLine(f));
    }
    HoldsMap(FactLine, SafeText, Nothing, p.facts);
    FlattenNothing(p.facts);
    HoldsHeading("FACTS YOU MAY CITE");
    HoldsConcat(Heading("FACTS YOU MAY CITE"), Map(FactLine, p.facts), [], [], Flatten(SafeText, p.facts), []);
  }

  lemma HoldsRefs(p: ActionInput)
    ensures Holds(RefSection(p), Flatten(RefCaption, p.evidenceRefs), UnfencedTexts(p))
  {
    forall r: EvidenceRef ensures Holds([RefLine(r)], RefCaption(r), RefMediaType(r)) {
      var line := RefLine(r);
      Contents4(line[0], line[1], line[2], line[3]);
      HoldsLine(line);
    }
    HoldsMap(RefLine, RefCaption, RefMediaType, p.evidenceRefs);
    HoldsHeading(ATTACHED);
    HoldsConcat(Heading(ATTACHED), Map(RefLine, p.evidenceRefs), [], [], Flatten(RefCaption, p.evidenceRefs), UnfencedTexts(p));
  }

  /** The render fences exactly the checked strings, in the order the check reads them. */
  lemma CheckCoversRender(p: ActionInput)
    ensures Values(ActionBody(p)) == CheckedValues(p)
    ensures OpenTexts(ActionBody(p)) == UnfencedTexts(p)
    ensures WellSpaced(ActionBody(p))
  {
    var labels := [p.communityLabel, p.destinationLabel];
    var facts, captions := Flatten(SafeText, p.facts), Flatten(RefCaption, p.evidenceRefs);
    HoldsClosed(BindingSection(p));
    HoldsView(p);
    HoldsFacts(p);
    HoldsRefs(p);
    HoldsConcat(BindingSection(p), ViewSection(p), [], [], labels, []);
    HoldsConcat(BindingSection(p) + ViewSection(p), FactSection(p), labels, [], facts, []);
    HoldsConcat(BindingSection(p) + ViewSection(p) + FactSection(p), RefSection(p), labels + facts, [], captions, UnfencedTexts(p));
    HoldsJoined(ActionLines(p), CheckedValues(p), UnfencedTexts(p));
  }

  /**
   With a token the derivation returns, the message reads back as exactly the checked values if and
   only if no attachment's media type holds the opening marker.
   */
  lemma ActionRoundTrip(p: ActionInput, t: string)
    requires IsToken(t) && !InAny(t, CheckedValues(p))
    ensures ReadMessage(DATA_FORMAT, Message(DATA_FORMAT, t, ActionBody(p))) == Some((t, CheckedValues(p))) <==>
            !InAny(Opening(t), UnfencedTexts(p))
  {
    CheckCoversRender(p);
    MessageReadsBack(DATA_FORMAT, t, ActionBody(p));
  }
}
