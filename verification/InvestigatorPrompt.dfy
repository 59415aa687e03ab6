/** The Investigator runtime's user message, and which parts of a typed fact count as free text. */
module InvestigatorPrompt {
  import opened Text
  import opened Fencing
  import opened PromptDocument

  /** One dumped member of a typed fact value. */
  datatype Item = FreeText(text: string) | ClosedText(words: Plain)
  datatype Field = Field(name: Plain, item: Item)

  /** The fact values an investigation may carry, with the members each shape declares. */
  datatype FactValue =
    | IncidentOccurrence(occurredAt: Plain, equipment: Plain, failureMode: Plain)
    | ServiceImpact(impactCode: Plain, summary: string)
    | LocationArea(area: Plain)
    | IdentityAttribute(displayName: string)
    | UnitLocation(unitLabel: string)
    | HealthDetail(subjectRelation: Plain, detail: string)
    | ManagementStatement(statement: string, speakerOrg: string, statedAt: Plain)
    | EvidenceDescription(description: string, mediaKind: Plain)

  /** `model_dump` without the discriminator: the declared members in order. */
  function Dump(v: FactValue): seq<Field> {
    match v
    case IncidentOccurrence(at, equipment, mode) =>
      [Field("occurred_at", ClosedText(at)), Field("equipment", ClosedText(equipment)), Field("failure_mode", ClosedText(mode))]
    case ServiceImpact(code, summary) => [Field("impact_code", ClosedText(code)), Field("summary", FreeText(summary))]
    case LocationArea(area) => [Field("area", ClosedText(area))]
    case IdentityAttribute(name) => [Field("display_name", FreeText(name))]
    case UnitLocation(unit) => [Field("unit_label", FreeText(unit))]
    case HealthDetail(relation, detail) => [Field("subject_relation", ClosedText(relation)), Field("detail", FreeText(detail))]
    case ManagementStatement(statement, org, at) =>
      [Field("statement", FreeText(statement)), Field("speaker_org", FreeText(org)), Field("stated_at", ClosedText(at))]
    case EvidenceDescription(description, kind) =>
      [Field("description", FreeText(description)), Field("media_kind", ClosedText(kind))]
  }

  function FactType(v: FactValue): Plain {
    match v
    case IncidentOccurrence(_, _, _) => "INCIDENT_OCCURRENCE"
    case ServiceImpact(_, _) => "SERVICE_IMPACT"
    case LocationArea(_) => "LOCATION_AREA"
    case IdentityAttribute(_) => "IDENTITY_ATTRIBUTE"
    case UnitLocation(_) => "UNIT_LOCATION"
    case HealthDetail(_, _) => "HEALTH_DETAIL"
    case ManagementStatement(_, _, _) => "MANAGEMENT_STATEMENT"
    case EvidenceDescription(_, _) => "EVIDENCE_DESCRIPTION"
  }

  const FREE_TEXT_NAMES: seq<string> := ["summary", "display_name", "unit_label", "detail", "statement", "description"]

  datatype Fact = Fact(
    factId: Plain, reportId: Plain, pseudonym: string, value: FactValue,
    sensitivity: Plain, status: Plain, evidenceIds: seq<Plain>)

  datatype Report = Report(
    reportId: Plain, pseudonym: string, summary: string, occurredAt: Option<Plain>, sourceMessageIds: seq<Plain>)

  datatype Evidence = Evidence(
    evidenceId: Plain, rootId: Plain, pseudonym: string, mediaType: string, sha256: Plain,
    derivedFrom: Option<Plain>, extractedText: Option<string>, machineCaption: Option<string>)

  datatype Finding = Finding(factId: Plain, status: Plain)
  datatype PriorAssessment = PriorAssessment(assessmentId: Plain, caseVersion: nat, findings: seq<Finding>)

  datatype InvestigationInput = InvestigationInput(
    caseId: Plain, caseVersion: nat, issueType: Plain, state: Plain, title: string,
    reports: seq<Report>, facts: seq<Fact>, evidence: seq<Evidence>,
    prior: Option<PriorAssessment>, corroborationMin: nat)

  // ---------- What the collision check reads ----------

  /** The free text of the member called `name`, if the value has one. */
  function Lookup(fields: seq<Field>, name: string): seq<string> {
    if fields == [] then []
    else if fields[0].name == name && fields[0].item.FreeText? then [fields[0].item.text]
    else Lookup(fields[1..], name)
  }

  /** Look the free-text names up one after the other. */
  function LookupAll(fields: seq<Field>, names: seq<string>): seq<string> {
    if names == [] then [] else Lookup(fields, names[0]) + LookupAll(fields, names[1..])
  }

  function FactValues(f: Fact): seq<string> { LookupAll(Dump(f.value), FREE_TEXT_NAMES) }

  function Optional(o: Option<string>): seq<string> { if o.Some? then [o.value] else [] }

  function EvidenceValues(e: Evidence): seq<string> { Optional(e.extractedText) + Optional(e.machineCaption) }

  function ReportValues(r: Report): seq<string> { [r.summary] }

  function CheckedValues(p: InvestigationInput): seq<string> {
    [p.title] + Flatten(ReportValues, p.reports) + Flatten(FactValues, p.facts) + Flatten(EvidenceValues, p.evidence)
  }

  /** The untrusted free-text parts of one typed fact value. */
  method ValueLines(fields: seq<Field>) returns (parts: seq<string>)
    ensures parts == LookupAll(fields, FREE_TEXT_NAMES)
  {
    parts := [];
    for i := 0 to |FREE_TEXT_NAMES|
      invariant parts + LookupAll(fields, FREE_TEXT_NAMES[i..]) == LookupAll(fields, FREE_TEXT_NAMES)
    {
      parts := parts + Lookup(fields, FREE_TEXT_NAMES[i]);
      assert FREE_TEXT_NAMES[i..][1..] == FREE_TEXT_NAMES[i + 1..];
    }
  }

  method ReportStrings(reports: seq<Report>) returns (values: seq<string>)
    ensures values == Flatten(ReportValues, reports)
  {
    values := [];
    for i := 0 to |reports|
      invariant values == Flatten(ReportValues, reports[..i])
    {
      FlattenStep(ReportValues, reports, i);
      values := values + [reports[i].summary];
    }
    assert reports[..|reports|] == reports;
  }

  method FactStrings(facts: seq<Fact>) returns (values: seq<string>)
    ensures values == Flatten(FactValues, facts)
  {
    values := [];
    for i := 0 to |facts|
      invariant values == Flatten(FactValues, facts[..i])
    {
      FlattenStep(FactValues, facts, i);
      var parts := ValueLines(Dump(facts[i].value));
      values := values + parts;
    }
    assert facts[..|facts|] == facts;
  }

  method EvidenceStrings(evidence: seq<Evidence>) returns (values: seq<string>)
    ensures values == Flatten(EvidenceValues, evidence)
  {
    values := [];
    for i := 0 to |evidence|
      invariant values == Flatten(EvidenceValues, evidence[..i])
    {
      FlattenStep(EvidenceValues, evidence, i);
      var item := evidence[i];
      if item.extractedText.Some? { values := values + [item.extractedText.value]; }
      if item.machineCaption.Some? { values := values + [item.machineCaption.value]; }
    }
    assert evidence[..|evidence|] == evidence;
  }

  /** Every untrusted string the render places inside a fence. */
  method PayloadValues(p: InvestigationInput) returns (values: seq<string>)
    ensures values == CheckedValues(p)
  {
    var reports := ReportStrings(p.reports);
    var facts := FactStrings(p.facts);
    var evidence := EvidenceStrings(p.evidence);
    values := [p.title] + reports + facts + evidence;
  }

  // ---------- What is rendered ----------

  /** One member: free text under a listed name is fenced, everything else is printed plainly. */
  function MemberLine(f: Field): Line {
    if f.item.ClosedText? then [Closed("    " + f.name + ": " + f.item.words)]
    else if f.name in FREE_TEXT_NAMES then [Closed("    " + f.name + ": "), Quoted(f.item.text)]
    else [Closed("    " + f.name + ": "), Open(f.item.text)]
  }

  function EvidenceIdsSuffix(f: Fact): Plain {
    " evidence_ids=" + if f.evidenceIds == [] then "none" else PlainJoin(",", f.evidenceIds)
  }

  function StatusSuffix(f: Fact): Plain {
    " current_status=" + f.status + EvidenceIdsSuffix(f)
  }

  function FactSuffix(f: Fact): Plain {
    " sensitivity=" + f.sensitivity + StatusSuffix(f)
  }

  function FactHeader(f: Fact): Line {
    [Closed("- fact_id=" + f.factId + " report_id=" + f.reportId + " reporter="),
     Open(f.pseudonym),
     Closed(" type=" + FactType(f.value) + FactSuffix(f))]
  }

  function FactLines(f: Fact): seq<Line> { [FactHeader(f)] + Map(MemberLine, Dump(f.value)) }

  function FactLine(f: Fact): Line { Lines(FactLines(f)) }

  function ReportMiddle(r: Report): Plain {
    (if r.occurredAt.None? then "" else " occurred_at=" + r.occurredAt.value) +
    " source_message_ids=" + PlainJoin(",", r.sourceMessageIds) + "\n    summary: "
  }

  function ReportLine(r: Report): Line {
    [Closed("- report_id=" + r.reportId + " reporter="), Open(r.pseudonym), Closed(ReportMiddle(r)), Quoted(r.summary)]
  }

  function EvidenceSuffix(e: Evidence): Plain {
    " sha256=" + e.sha256 + (if e.derivedFrom.None? then "" else " derived_from_evidence_id=" + e.derivedFrom.value)
  }

  function EvidenceHeader(e: Evidence): Line {
    [Closed("- evidence_id=" + e.evidenceId + " root_id=" + e.rootId + " submitted_by="),
     Open(e.pseudonym), Closed(" media_type="), Open(e.mediaType), Closed(EvidenceSuffix(e))]
  }

  function OptionalLine(words: Plain, o: Option<string>): seq<Line> {
    if o.None? then [] else [[Closed(words), Quoted(o.value)]]
  }

  function EvidenceLines(e: Evidence): seq<Line> {
    [EvidenceHeader(e)] + OptionalLine("    caption: ", e.machineCaption) +
    OptionalLine("    extracted_text: ", e.extractedText)
  }

  function EvidenceLine(e: Evidence): Line { Lines(EvidenceLines(e)) }

  function TitleLine(p: InvestigationInput): Line {
    [Closed("- case_id=" + p.caseId + " version=" + Decimal(p.caseVersion) + " issue_type=" + p.issueType +
            " state=" + p.state + " title="),
     Quoted(p.title)]
  }

  function CaseSection(p: InvestigationInput): seq<Line> {
    Heading("CORROBORATION MINIMUM: " + Decimal(p.corroborationMin)) + Heading("CASE") + [TitleLine(p)]
  }

  function ReportSection(p: InvestigationInput): seq<Line> { Heading("REPORTS") + Map(ReportLine, p.reports) }

  function FactSection(p: InvestigationInput): seq<Line> { Heading("FACTS") + Map(FactLine, p.facts) }

  function NoEvidence(p: InvestigationInput): seq<Line> { if p.evidence == [] then [[Closed("- none")]] else [] }

  function EvidenceSection(p: InvestigationInput): seq<Line> {
    Heading("EVIDENCE") + NoEvidence(p) + Map(EvidenceLine, p.evidence)
  }

  function FindingLine(f: Finding): Line { [Closed("    fact " + f.factId + " was " + f.status)] }

  function PriorLine(prior: PriorAssessment): Line {
    [Closed("- assessment_id=" + prior.assessmentId + " based_on_case_version=" + Decimal(prior.caseVersion))]
  }

  function PriorSection(p: InvestigationInput): seq<Line> {
    match p.prior
    case None => []
    case Some(prior) => Heading("PREVIOUS ASSESSMENT") + [PriorLine(prior)] + Map(FindingLine, prior.findings)
  }

  function InvestigationLines(p: InvestigationInput): seq<Line> {
    CaseSection(p) + ReportSection(p) + FactSection(p) + (EvidenceSection(p) + PriorSection(p))
  }

  function InvestigationBody(p: InvestigationInput): seq<Piece> { Lines(InvestigationLines(p)) }

  // ---------- The renderer ----------

  /** One dumped member: fenced when it is a listed free text, printed as it is otherwise. */
  lemma RenderMember(f: Field, fence: string)
    ensures Render(MemberLine(f), fence) ==
            "    " + f.name + ": " +
            if f.item.FreeText? then (if f.name in FREE_TEXT_NAMES then Fence(f.item.text, fence) else f.item.text)
            else f.item.words
  {
    if f.item.FreeText? { Render2(MemberLine(f)[0], MemberLine(f)[1], fence); } else { Render1(MemberLine(f)[0], fence); }
  }

  method StructuredValueLines(v: FactValue, fence: string) returns (lines: seq<string>)
    ensures lines == Each(Map(MemberLine, Dump(v)), fence)
  {
    hide Dump, MemberLine, Render, Fence;
    lines := [];
    var fields := Dump(v);
    for i := 0 to |fields|
      invariant lines == Each(Map(MemberLine, fields[..i]), fence)
    {
      var f := fields[i];
      RenderMember(f, fence);
      if f.item.FreeText? && f.name in FREE_TEXT_NAMES {
        lines := lines + ["    " + f.name + ": " + Fence(f.item.text, fence)];
      } else {
        lines := lines + ["    " + f.name + ": " + (if f.item.FreeText? then f.item.text else f.item.words)];
      }
      EachMapped([], MemberLine, fields, i, fence);
      assert [] + Map(MemberLine, fields[..i]) == Map(MemberLine, fields[..i]);
      assert [] + Map(MemberLine, fields[..i + 1]) == Map(MemberLine, fields[..i + 1]);
    }
    assert fields[..|fields|] == fields;
  }

  method RenderFact(f: Fact, fence: string) returns (text: string)
    ensures text == Render(FactLine(f), fence)
  {
    var header := "- fact_id=" + f.factId + " report_id=" + f.reportId + " reporter=" + f.pseudonym +
                  (" type=" + FactType(f.value) + FactSuffix(f));
    Render3(FactHeader(f)[0], FactHeader(f)[1], FactHeader(f)[2], fence);
    var members := StructuredValueLines(f.value, fence);
    assert Each(FactLines(f), fence) == [header] + members;
    LinesRender(FactLines(f), fence);
    text := Join("\n", [header] + members);
  }

  method RenderReport(r: Report, fence: string) returns (text: string)
    ensures text == Render(ReportLine(r), fence)
  {
    text := "- report_id=" + r.reportId + " reporter=" + r.pseudonym + ReportMiddle(r) + Fence(r.summary, fence);
    var line := ReportLine(r);
    assert line == [line[0], line[1], line[2]] + [line[3]];
    RenderConcat([line[0], line[1], line[2]], [line[3]], fence);
    Render3(line[0], line[1], line[2], fence);
    Render1(line[3], fence);
  }

  method RenderEvidenceHeader(e: Evidence, fence: string) returns (text: string)
    ensures text == Render(EvidenceHeader(e), fence)
  {
    text := "- evidence_id=" + e.evidenceId + " root_id=" + e.rootId + " submitted_by=" + e.pseudonym +
            " media_type=" + (e.mediaType + EvidenceSuffix(e));
    ghost var line := EvidenceHeader(e);
    Render5(line[0], line[1], line[2], line[3], line[4], fence);
  }

  method RenderEvidence(e: Evidence, fence: string) returns (text: string)
    ensures text == Render(EvidenceLine(e), fence)
  {
    hide EvidenceHeader;
    var header := RenderEvidenceHeader(e, fence);
    var parts := [header];
    if e.machineCaption.Some? {
      parts := parts + ["    caption: " + Fence(e.machineCaption.value, fence)];
      Render2(Closed("    caption: "), Quoted(e.machineCaption.value), fence);
    }
    if e.extractedText.Some? {
      parts := parts + ["    extracted_text: " + Fence(e.extractedText.value, fence)];
      Render2(Closed("    extracted_text: "), Quoted(e.extractedText.value), fence);
    }
    hide Render, Fence;
    assert parts == Each(EvidenceLines(e), fence);
    LinesRender(EvidenceLines(e), fence);
    text := Join("\n", parts);
  }

  method RenderCase(p: InvestigationInput, fence: string) returns (lines: seq<string>)
    ensures lines == Each(CaseSection(p), fence)
  {
    lines := ["", "CORROBORATION MINIMUM: " + Decimal(p.corroborationMin), "", "CASE",
              "- case_id=" + p.caseId + " version=" + Decimal(p.caseVersion) + " issue_type=" + p.issueType +
              " state=" + p.state + " title=" + Fence(p.title, fence)];
    RenderHeading("CORROBORATION MINIMUM: " + Decimal(p.corroborationMin), fence);
    RenderHeading("CASE", fence);
    Render2(TitleLine(p)[0], TitleLine(p)[1], fence);
    EachConcat(Heading("CORROBORATION MINIMUM: " + Decimal(p.corroborationMin)), Heading("CASE"), fence);
    EachAppend(Heading("CORROBORATION MINIMUM: " + Decimal(p.corroborationMin)) + Heading("CASE"), TitleLine(p), fence);
  }

  method RenderReports(p: InvestigationInput, fence: string) returns (lines: seq<string>)
    ensures lines == Each(ReportSection(p), fence)
  {
    lines := ["", "REPORTS"];
    RenderHeading("REPORTS", fence);
    for i := 0 to |p.reports|
      invariant lines == Each(Heading("REPORTS") + Map(ReportLine, p.reports[..i]), fence)
    {
      var rendered := RenderReport(p.reports[i], fence);
      lines := lines + [rendered];
      EachMapped(Heading("REPORTS"), ReportLine, p.reports, i, fence);
    }
    assert p.reports[..|p.reports|] == p.reports;
  }

  method RenderFacts(p: InvestigationInput, fence: string) returns (lines: seq<string>)
    ensures lines == Each(FactSection(p), fence)
  {
    lines := ["", "FACTS"];
    RenderHeading("FACTS", fence);
    for i := 0 to |p.facts|
      invariant lines == Each(Heading("FACTS") + Map(FactLine, p.facts[..i]), fence)
    {
      var rendered := RenderFact(p.facts[i], fence);
      lines := lines + [rendered];
      EachMapped(Heading("FACTS"), FactLine, p.facts, i, fence);
    }
    assert p.facts[..|p.facts|] == p.facts;
  }

  method RenderAllEvidence(p: InvestigationInput, fence: string) returns (lines: seq<string>)
    ensures lines == Each(EvidenceSection(p), fence)
  {
    lines := ["", "EVIDENCE"];
    RenderHeading("EVIDENCE", fence);
    ghost var before := Heading("EVIDENCE");
    if p.evidence == [] {
      lines := lines + ["- none"];
      Render1(Closed("- none"), fence);
      EachAppend(before, [Closed("- none")], fence);
      before := before + [[Closed("- none")]];
    }
    for i := 0 to |p.evidence|
      invariant lines == Each(before + Map(EvidenceLine, p.evidence[..i]), fence)
    {
      var rendered := RenderEvidence(p.evidence[i], fence);
      lines := lines + [rendered];
      EachMapped(before, EvidenceLine, p.evidence, i, fence);
    }
    assert p.evidence[..|p.evidence|] == p.evidence;
  }

  method RenderPrior(p: InvestigationInput, fence: string) returns (lines: seq<string>)
    ensures lines == Each(PriorSection(p), fence)
  {
    lines := [];
    if p.prior.Some? {
      var prior := p.prior.value;
      lines := ["", "PREVIOUS ASSESSMENT",
                "- assessment_id=" + prior.assessmentId + " based_on_case_version=" + Decimal(prior.caseVersion)];
      RenderHeading("PREVIOUS ASSESSMENT", fence);
      Render1(PriorLine(prior)[0], fence);
      ghost var before := Heading("PREVIOUS ASSESSMENT") + [PriorLine(prior)];
      EachAppend(Heading("PREVIOUS ASSESSMENT"), PriorLine(prior), fence);
      for i := 0 to |prior.findings|
        invariant lines == Each(before + Map(FindingLine, prior.findings[..i]), fence)
      {
        lines := lines + ["    fact " + prior.findings[i].factId + " was " + prior.findings[i].status];
        Render1(FindingLine(prior.findings[i])[0], fence);
        EachMapped(before, FindingLine, prior.findings, i, fence);
      }
      assert prior.findings[..|prior.findings|] == prior.findings;
    }
  }

  /** Render the bounded payload as fixed labels around fenced data blocks. */
  method RenderInvestigationUserMessage(p: InvestigationInput, fence: string) returns (message: string)
    ensures message == Message(DATA_FORMAT, fence, InvestigationBody(p))
  {
    var opening, closing := "<<<" + fence, fence + ">>>";
    var header := "DATA MARKERS: quotations open with " + opening + " and close with " + closing;
    var title := RenderCase(p, fence);
    var reports := RenderReports(p, fence);
    var facts := RenderFacts(p, fence);
    var evidence := RenderAllEvidence(p, fence);
    var prior := RenderPrior(p, fence);
    EachConcat(CaseSection(p), ReportSection(p), fence);
    EachConcat(CaseSection(p) + ReportSection(p), FactSection(p), fence);
    EachConcat(EvidenceSection(p), PriorSection(p), fence);
    EachConcat(CaseSection(p) + ReportSection(p) + FactSection(p), EvidenceSection(p) + PriorSection(p), fence);
    MessageOfLines(DATA_FORMAT, fence, InvestigationLines(p));
    message := Join("\n", [header] + (title + reports + facts + (evidence + prior)));
  }

  // ---------- The check covers the render ----------

  /** The listed members, in declaration order: what the renderer fences of one value. */
  function FencedMembers(fields: seq<Field>, names: seq<string>): seq<string> {
    if fields == [] then []
    else
      (if fields[0].item.FreeText? && fields[0].name in names then [fields[0].item.text] else []) +
      FencedMembers(fields[1..], names)
  }

  ghost predicate DistinctNames(fields: seq<Field>) {
    forall i, j :: 0 <= i < j < |fields| ==> fields[i].name != fields[j].name
  }

  lemma {:induction false} NoSuchMember(fields: seq<Field>, name: string)
    requires forall i :: 0 <= i < |fields| ==> fields[i].name != name
    ensures Lookup(fields, name) == []
  {
    if fields != [] { NoSuchMember(fields[1..], name); }
  }

  lemma {:induction false} LookupIsMember(fields: seq<Field>, name: string)
    requires DistinctNames(fields)
    ensures FencedMembers(fields, [name]) == Lookup(fields, name)
  {
    if fields != [] {
      LookupIsMember(fields[1..], name);
      if fields[0].name == name { NoSuchMember(fields[1..], name); }
    }
  }

  lemma {:induction false} MembersSplit(fields: seq<Field>, name: string, names: seq<string>)
    requires name !in names
    ensures multiset(FencedMembers(fields, [name] + names))
         == multiset(FencedMembers(fields, [name])) + multiset(FencedMembers(fields, names))
  {
    if fields != [] { MembersSplit(fields[1..], name, names); }
  }

  lemma {:induction false} NothingListed(fields: seq<Field>)
    ensures FencedMembers(fields, []) == []
  {
    if fields != [] { NothingListed(fields[1..]); }
  }

  /** Looking names up one by one and dumping members in order agree on what is free text. */
  lemma {:induction false} LookupsAgree(fields: seq<Field>, names: seq<string>)
    requires DistinctNames(fields)
    requires forall i, j :: 0 <= i < j < |names| ==> names[i] != names[j]
    ensures multiset(LookupAll(fields, names)) == multiset(FencedMembers(fields, names))
  {
    if names == [] {
      NothingListed(fields);
    } else {
      LookupsAgree(fields, names[1..]);
      LookupIsMember(fields, names[0]);
      MembersSplit(fields, names[0], names[1..]);
      assert names == [names[0]] + names[1..];
    }
  }

  lemma FactValuesAgree(f: Fact)
    ensures multiset(FactValues(f)) == multiset(FencedMembers(Dump(f.value), FREE_TEXT_NAMES))
  {
    LookupsAgree(Dump(f.value), FREE_TEXT_NAMES);
  }

  function FencedOfFact(f: Fact): seq<string> { FencedMembers(Dump(f.value), FREE_TEXT_NAMES) }

  function RenderedEvidenceValues(e: Evidence): seq<string> { Optional(e.machineCaption) + Optional(e.extractedText) }

  /** The fenced values in render order. */
  function RenderedValues(p: InvestigationInput): seq<string> {
    [p.title] + Flatten(ReportValues, p.reports) + Flatten(FencedOfFact, p.facts) +
    Flatten(RenderedEvidenceValues, p.evidence)
  }

  lemma EvidencePermutes(e: Evidence)
    ensures multiset(EvidenceValues(e)) == multiset(RenderedEvidenceValues(e))
  {}

  lemma CheckedIsRendered(p: InvestigationInput)
    ensures multiset(CheckedValues(p)) == multiset(RenderedValues(p))
  {
    forall f: Fact ensures multiset(FactValues(f)) == multiset(FencedOfFact(f)) { FactValuesAgree(f); }
    FlattenPermutes(FactValues, FencedOfFact, p.facts);
    forall e: Evidence ensures multiset(EvidenceValues(e)) == multiset(RenderedEvidenceValues(e)) { EvidencePermutes(e); }
    FlattenPermutes(EvidenceValues, RenderedEvidenceValues, p.evidence);
  }

  // ---------- What stays outside the fences ----------

  /** Free-text members whose name is not listed: printed plainly. */
  function PlainMembers(fields: seq<Field>): seq<string> {
    if fields == [] then []
    else
      (if fields[0].item.FreeText? && fields[0].name !in FREE_TEXT_NAMES then [fields[0].item.text] else []) +
      PlainMembers(fields[1..])
  }

  function UnfencedInFact(f: Fact): seq<string> { [f.pseudonym] + PlainMembers(Dump(f.value)) }

  function UnfencedInReport(r: Report): seq<string> { [r.pseudonym] }

  function UnfencedInEvidence(e: Evidence): seq<string> { [e.pseudonym, e.mediaType] }

  /** The free texts the render leaves unfenced and the collision check does not read. */
  function UnfencedTexts(p: InvestigationInput): seq<string> {
    Flatten(UnfencedInReport, p.reports) + Flatten(UnfencedInFact, p.facts) + Flatten(UnfencedInEvidence, p.evidence)
  }

  lemma {:induction false} HoldsMembers(fields: seq<Field>)
    ensures Holds(Map(MemberLine, fields), FencedMembers(fields, FREE_TEXT_NAMES), PlainMembers(fields))
  {
    if fields != [] {
      var line := MemberLine(fields[0]);
      HoldsMembers(fields[1..]);
      if fields[0].item.FreeText? { Contents2(line[0], line[1]); } else { Contents1(line[0]); }
      HoldsLine(line);
      HoldsConcat([line], Map(MemberLine, fields[1..]), Values(line), OpenTexts(line),
                  FencedMembers(fields[1..], FREE_TEXT_NAMES), PlainMembers(fields[1..]));
      assert Map(MemberLine, fields) == [line] + Map(MemberLine, fields[1..]);
    }
  }

  lemma HoldsFactHeader(f: Fact)
    ensures Holds([FactHeader(f)], [], [f.pseudonym])
  {
    var header := FactHeader(f);
    Contents3(header[0], header[1], header[2]);
    HoldsLine(header);
  }

  lemma HoldsFact(f: Fact)
    ensures Holds([FactLine(f)], FencedOfFact(f), UnfencedInFact(f))
  {
    HoldsFactHeader(f);
    HoldsMembers(Dump(f.value));
    HoldsConcat([FactHeader(f)], Map(MemberLine, Dump(f.value)), [], [f.pseudonym], FencedOfFact(f), PlainMembers(Dump(f.value)));
    HoldsJoined(FactLines(f), FencedOfFact(f), UnfencedInFact(f));
  }

  lemma HoldsReport(r: Report)
    ensures Holds([ReportLine(r)], ReportValues(r), UnfencedInReport(r))
  {
    var line := ReportLine(r);
    Contents4(line[0], line[1], line[2], line[3]);
    HoldsLine(line);
  }

  lemma HoldsOptional(words: Plain, o: Option<string>)
    ensures Holds(OptionalLine(words, o), Optional(o), [])
  {
    if o.Some? {
      Contents2(Closed(words), Quoted(o.value));
      HoldsLine([Closed(words), Quoted(o.value)]);
    }
  }

  lemma HoldsEvidenceHeader(e: Evidence)
    ensures Holds([EvidenceHeader(e)], [], UnfencedInEvidence(e))
  {
    var header := EvidenceHeader(e);
    Contents5(header[0], header[1], header[2], header[3], header[4]);
    HoldsLine(header);
  }

  lemma HoldsEvidence(e: Evidence)
    ensures Holds([EvidenceLine(e)], RenderedEvidenceValues(e), UnfencedInEvidence(e))
  {
    var header, exposed := [EvidenceHeader(e)], UnfencedInEvidence(e);
    var caption, text := OptionalLine("    caption: ", e.machineCaption), OptionalLine("    extracted_text: ", e.extractedText);
    HoldsEvidenceHeader(e);
    HoldsOptional("    caption: ", e.machineCaption);
    HoldsOptional("    extracted_text: ", e.extractedText);
    HoldsConcat(header, caption, [], exposed, Optional(e.machineCaption), []);
    HoldsConcat(header + caption, text, Optional(e.machineCaption), exposed, Optional(e.extractedText), []);
    HoldsJoined(EvidenceLines(e), RenderedEvidenceValues(e), exposed);
  }

  lemma HoldsCase(p: InvestigationInput)
    ensures Holds(CaseSection(p), [p.title], [])
  {
    var minimum := "CORROBORATION MINIMUM: " + Decimal(p.corroborationMin);
    HoldsHeading(minimum);
    HoldsHeading("CASE");
    Contents2(TitleLine(p)[0], TitleLine(p)[1]);
    HoldsLine(TitleLine(p));
    HoldsConcat(Heading(minimum), Heading("CASE"), [], [], [], []);
    HoldsConcat(Heading(minimum) + Heading("CASE"), [TitleLine(p)], [], [], [p.title], []);
  }

  lemma HoldsReports(p: InvestigationInput)
    ensures Holds(ReportSection(p), Flatten(ReportValues, p.reports), Flatten(UnfencedInReport, p.reports))
  {
    forall r: Report ensures Holds([ReportLine(r)], ReportValues(r), UnfencedInReport(r)) { HoldsReport(r); }
    HoldsMap(ReportLine, ReportValues, UnfencedInReport, p.reports);
    HoldsHeading("REPORTS");
    HoldsConcat(Heading("REPORTS"), Map(ReportLine, p.reports), [], [],
                Flatten(ReportValues, p.reports), Flatten(UnfencedInReport, p.reports));
  }

  lemma HoldsFacts(p: InvestigationInput)
    ensures Holds(FactSection(p), Flatten(FencedOfFact, p.facts), Flatten(UnfencedInFact, p.facts))
  {
    forall f: Fact ensures Holds([FactLine(f)], FencedOfFact(f), UnfencedInFact(f)) { HoldsFact(f); }
    HoldsMap(FactLine, FencedOfFact, UnfencedInFact, p.facts);
    HoldsHeading("FACTS");
    HoldsConcat(Heading("FACTS"), Map(FactLine, p.facts), [], [],
                Flatten(FencedOfFact, p.facts), Flatten(UnfencedInFact, p.facts));
  }

  lemma HoldsEvidenceItems(evidence: seq<Evidence>)
    ensures Holds(Map(EvidenceLine, evidence), Flatten(RenderedEvidenceValues, evidence), Flatten(UnfencedInEvidence, evidence))
  {
    forall e: Evidence ensures Holds([EvidenceLine(e)], RenderedEvidenceValues(e), UnfencedInEvidence(e)) { HoldsEvidence(e); }
    HoldsMap(EvidenceLine, RenderedEvidenceValues, UnfencedInEvidence, evidence);
  }

  lemma HoldsAllEvidence(p: InvestigationInput)
    ensures Holds(EvidenceSection(p), Flatten(RenderedEvidenceValues, p.evidence), Flatten(UnfencedInEvidence, p.evidence))
  {
    HoldsEvidenceItems(p.evidence);
    HoldsHeading("EVIDENCE");
    Contents1(Closed("- none"));
    HoldsLine([Closed("- none")]);
    HoldsConcat(Heading("EVIDENCE"), NoEvidence(p), [], [], [], []);
    HoldsConcat(Heading("EVIDENCE") + NoEvidence(p), Map(EvidenceLine, p.evidence), [], [],
                Flatten(RenderedEvidenceValues, p.evidence), Flatten(UnfencedInEvidence, p.evidence));
  }

  lemma HoldsFindings(findings: seq<Finding>)
    ensures Holds(Map(FindingLine, findings), [], [])
  {
    forall f: Finding ensures Holds([FindingLine(f)], Nothing(f), Nothing(f)) {
      Contents1(FindingLine(f)[0]);
      HoldsLine(FindingLine(f));
    }
    HoldsMap(FindingLine, Nothing, Nothing, findings);
    FlattenNothing(findings);
  }

  lemma HoldsPrior(p: InvestigationInput)
    ensures Holds(PriorSection(p), [], [])
  {
    if p.prior.Some? {
      var prior := p.prior.value;
      HoldsFindings(prior.findings);
      HoldsHeading("PREVIOUS ASSESSMENT");
      Contents1(PriorLine(prior)[0]);
      HoldsLine(PriorLine(prior));
      HoldsConcat(Heading("PREVIOUS ASSESSMENT"), [PriorLine(prior)], [], [], [], []);
      HoldsConcat(Heading("PREVIOUS ASSESSMENT") + [PriorLine(prior)], Map(FindingLine, prior.findings), [], [], [], []);
    }
  }

  lemma HoldsSections(
    a: seq<Line>, b: seq<Line>, c: seq<Line>, d: seq<Line>, e: seq<Line>,
    va: seq<string>, vb: seq<string>, vc: seq<string>, vd: seq<string>,
    ob: seq<string>, oc: seq<string>, od: seq<string>)
    requires Holds(a, va, []) && Holds(b, vb, ob) && Holds(c, vc, oc) && Holds(d, vd, od) && Holds(e, [], [])
    ensures Holds(a + b + c + (d + e), va + vb + vc + vd, ob + oc + od)
  {
    HoldsConcat(a, b, va, [], vb, ob);
    HoldsConcat(a + b, c, va + vb, ob, vc, oc);
    HoldsConcat(d, e, vd, od, [], []);
    HoldsConcat(a + b + c, d + e, va + vb + vc, ob + oc, vd, od);
  }

  /** What the rendered message fences, in order, and what it leaves unfenced. */
  lemma BodyContents(p: InvestigationInput)
    ensures Values(InvestigationBody(p)) == RenderedValues(p)
    ensures OpenTexts(InvestigationBody(p)) == UnfencedTexts(p)
    ensures WellSpaced(InvestigationBody(p))
  {
    HoldsCase(p);
    HoldsReports(p);
    HoldsFacts(p);
    HoldsAllEvidence(p);
    HoldsPrior(p);
    HoldsSections(CaseSection(p), ReportSection(p), FactSection(p), EvidenceSection(p), PriorSection(p), [p.title],
                  Flatten(ReportValues, p.reports), Flatten(FencedOfFact, p.facts), Flatten(RenderedEvidenceValues, p.evidence),
                  Flatten(UnfencedInReport, p.reports), Flatten(UnfencedInFact, p.facts), Flatten(UnfencedInEvidence, p.evidence));
    HoldsJoined(InvestigationLines(p), RenderedValues(p), UnfencedTexts(p));
  }

  /** The collision check reads exactly the strings the render fences, typed fact values included. */
  lemma CheckCoversRender(p: InvestigationInput)
    ensures multiset(Values(InvestigationBody(p))) == multiset(CheckedValues(p))
  {
    BodyContents(p);
    CheckedIsRendered(p);
  }

  /**
   With a token the derivation returns, the message reads back as exactly the fenced values if and
   only if no unfenced free text -- a pseudonym, a media type, the organisation a statement is
   attributed to -- holds the opening marker.
   */
  lemma InvestigatorRoundTrip(p: InvestigationInput, t: string)
    requires IsToken(t) && !InAny(t, CheckedValues(p))
    ensures ReadMessage(DATA_FORMAT, Message(DATA_FORMAT, t, InvestigationBody(p))) == Some((t, RenderedValues(p))) <==>
            !InAny(Opening(t), UnfencedTexts(p))
  {
    BodyContents(p);
    CheckCoversRender(p);
    SameMembers(Values(InvestigationBody(p)), CheckedValues(p));
    MessageReadsBack(DATA_FORMAT, t, InvestigationBody(p));
  }

  lemma ManagementNames()
    ensures "statement" in FREE_TEXT_NAMES && "speaker_org" !in FREE_TEXT_NAMES
  {
    assert FREE_TEXT_NAMES[4] == "statement";
    assert |"speaker_org"| == 11 && "speaker_org"[0] != "description"[0];
  }

  lemma Unfold(f: Field, rest: seq<Field>)
    ensures FencedMembers([f] + rest, FREE_TEXT_NAMES)
         == (if f.item.FreeText? && f.name in FREE_TEXT_NAMES then [f.item.text] else []) + FencedMembers(rest, FREE_TEXT_NAMES)
    ensures PlainMembers([f] + rest)
         == (if f.item.FreeText? && f.name !in FREE_TEXT_NAMES then [f.item.text] else []) + PlainMembers(rest)
  {
    assert ([f] + rest)[1..] == rest;
  }

  lemma ThreeMembers(a: Field, b: Field, c: Field)
    requires a.item.FreeText? && a.name in FREE_TEXT_NAMES
    requires b.item.FreeText? && b.name !in FREE_TEXT_NAMES && !c.item.FreeText?
    ensures FencedMembers([a, b, c], FREE_TEXT_NAMES) == [a.item.text] && PlainMembers([a, b, c]) == [b.item.text]
  {
    Unfold(a, [b, c]);
    Unfold(b, [c]);
    Unfold(c, []);
    assert [a, b, c] == [a] + [b, c] && [b, c] == [b] + [c] && [c] == [c] + [];
  }

  lemma ManagementMembers(statement: string, org: string, at: Plain)
    ensures var fields := Dump(ManagementStatement(statement, org, at));
            FencedMembers(fields, FREE_TEXT_NAMES) == [statement] && PlainMembers(fields) == [org]
  {
    var a, b, c := Field("statement", FreeText(statement)), Field("speaker_org", FreeText(org)), Field("stated_at", ClosedText(at));
    ManagementNames();
    ThreeMembers(a, b, c);
  }
}
