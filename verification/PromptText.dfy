/**
 What the prompts say, line by line, in the text itself: under which label each value stands, and
 which values stand together.
 */
module PromptText {
  import opened Text
  import opened Fencing
  import opened PromptDocument
  import Monitor = MonitorPrompt
  import Investigator = InvestigatorPrompt
  import Action = ActionPrompt
  import Commitment = CommitmentPrompt

  function Quote(value: string, t: string): string { "<<<" + t + value + t + ">>>" }

  lemma QuotesAreFences(value: string, t: string)
    ensures Fence(value, t) == Quote(value, t)
  {
  }

  // ---------- The monitor's message ----------

  function AttachmentText(a: Monitor.Attachment, t: string): string {
    "    attachment evidence_id=" + a.evidenceId + " media_type=" + a.mediaType +
    if a.safeCaption.None? then "" else " caption=" + Quote(a.safeCaption.value, t)
  }

  function AttachmentTexts(attachments: seq<Monitor.Attachment>, t: string): seq<string> {
    seq(|attachments|, i requires 0 <= i < |attachments| => AttachmentText(attachments[i], t))
  }

  lemma AttachmentReads(a: Monitor.Attachment, t: string)
    ensures Render(Monitor.AttachmentLine(a), t) == AttachmentText(a, t)
  {
    var line := Monitor.AttachmentLine(a);
    assert line == line[..2] + line[2..];
    RenderConcat(line[..2], line[2..], t);
    Render2(line[0], line[1], t);
    if a.safeCaption.Some? {
      Render2(line[2], line[3], t);
      QuotesAreFences(a.safeCaption.value, t);
    }
  }

  /** A message: its sender and instant on its own line, its attachments below, its text last. */
  lemma MessageReads(m: Monitor.ResidentMessage, t: string)
    ensures Render(Monitor.MessageLine(m), t) ==
            Join("\n",
                 ["- message_id=" + m.messageId + " sender=" + m.pseudonym + " sent_at=" + m.sentAt] +
                 AttachmentTexts(m.attachments, t) +
                 ["    text: " + Quote(m.text, t)])
  {
    hide Monitor.AttachmentLine, AttachmentText;
    var lines := Monitor.MessageLines(m);
    var n := |m.attachments|;
    LinesRender(lines, t);
    Render3(lines[0][0], lines[0][1], lines[0][2], t);
    Render2(lines[n + 1][0], lines[n + 1][1], t);
    QuotesAreFences(m.text, t);
    Assoc("- message_id=" + m.messageId + " sender=" + m.pseudonym, " sent_at=", m.sentAt);
    forall i | 0 <= i < n ensures Render(lines[1 + i], t) == AttachmentText(m.attachments[i], t) {
      AttachmentReads(m.attachments[i], t);
    }
    hide Render;
    assert Each(lines, t) ==
      ["- message_id=" + m.messageId + " sender=" + m.pseudonym + " sent_at=" + m.sentAt] +
      AttachmentTexts(m.attachments, t) + ["    text: " + Quote(m.text, t)];
  }

  /** A case that may be extended: its own title, then its facts. */
  lemma SummaryReads(s: Monitor.CaseSummary, t: string)
    ensures Each(Monitor.SummaryBlock(s), t) ==
            ["- case_id=" + s.caseId + " version=" + Decimal(s.caseVersion) + " issue_type=" + s.issueType +
             " title=" + Quote(s.title, t)] +
            seq(|s.factSummaries|, i requires 0 <= i < |s.factSummaries| => "    fact: " + Quote(s.factSummaries[i], t))
  {
    var line := Monitor.SummaryLine(s);
    Render2(line[0], line[1], t);
    QuotesAreFences(s.title, t);
    forall i | 0 <= i < |s.factSummaries|
      ensures Render(Monitor.FactLine(s.factSummaries[i]), t) == "    fact: " + Quote(s.factSummaries[i], t)
    {
      var fact := Monitor.FactLine(s.factSummaries[i]);
      Render2(fact[0], fact[1], t);
      QuotesAreFences(s.factSummaries[i], t);
    }
    hide Render, Quote;
  }

  /** What the monitor may answer with, and the order of the sections. */
  lemma IntroReads(p: Monitor.MonitorInput, t: string)
    ensures Each(Monitor.IntroLines(p), t) ==
            ["", "ALLOWED ISSUE TYPES: " + PlainJoin(", ", p.issueTypes)] +
            if p.sensitiveCategories == [] then [] else ["SENSITIVE CATEGORIES TO FLAG: " + PlainJoin(", ", p.sensitiveCategories)]
    ensures Each(Monitor.CaseLines(p), t) ==
            if p.summaries == [] then []
            else ["", "EXISTING CASES YOU MAY EXTEND"] + Each(Chained(Monitor.SummaryBlock, p.summaries), t)
    ensures Each(Monitor.MonitorLines(p), t) ==
            Each(Monitor.IntroLines(p), t) + Each(Monitor.CaseLines(p), t) +
            (["", "MESSAGES"] + Each(Map(Monitor.MessageLine, p.messages), t))
  {
    var lines := Monitor.IntroLines(p);
    Render1(lines[1][0], t);
    if p.sensitiveCategories != [] { Render1(lines[2][0], t); }
    if p.summaries != [] {
      RenderHeading("EXISTING CASES YOU MAY EXTEND", t);
      EachConcat(Heading("EXISTING CASES YOU MAY EXTEND"), Chained(Monitor.SummaryBlock, p.summaries), t);
    }
    RenderHeading("MESSAGES", t);
    hide Render, Monitor.IntroLines, Monitor.CaseLines, Monitor.MessageLine, Heading;
    EachConcat(Heading("MESSAGES"), Map(Monitor.MessageLine, p.messages), t);
    EachConcat(Monitor.IntroLines(p), Monitor.CaseLines(p), t);
    EachConcat(Monitor.IntroLines(p) + Monitor.CaseLines(p), Monitor.MessageSection(p), t);
  }

  // ---------- The investigator's message ----------

  /** A fact: whose it is, what it claims, how it stands and what supports it. */
  lemma FactHeaderReads(f: Investigator.Fact, t: string)
    ensures Render(Investigator.FactHeader(f), t) ==
            "- fact_id=" + f.factId + " report_id=" + f.reportId + " reporter=" + f.pseudonym +
            (" type=" + (match f.value
                         case IncidentOccurrence(_, _, _) => "INCIDENT_OCCURRENCE"
                         case ServiceImpact(_, _) => "SERVICE_IMPACT"
                         case LocationArea(_) => "LOCATION_AREA"
                         case IdentityAttribute(_) => "IDENTITY_ATTRIBUTE"
                         case UnitLocation(_) => "UNIT_LOCATION"
                         case HealthDetail(_, _) => "HEALTH_DETAIL"
                         case ManagementStatement(_, _, _) => "MANAGEMENT_STATEMENT"
                         case EvidenceDescription(_, _) => "EVIDENCE_DESCRIPTION") +
             (" sensitivity=" + f.sensitivity +
              (" current_status=" + f.status +
               (" evidence_ids=" + if f.evidenceIds == [] then "none" else PlainJoin(",", f.evidenceIds)))))
  {
    var line := Investigator.FactHeader(f);
    Render3(line[0], line[1], line[2], t);
  }

  function MemberText(f: Investigator.Field, t: string): string {
    "    " + f.name + ": " +
    if f.item.FreeText? then (if f.name in Investigator.FREE_TEXT_NAMES then Quote(f.item.text, t) else f.item.text)
    else f.item.words
  }

  function MemberTexts(fields: seq<Investigator.Field>, t: string): seq<string> {
    seq(|fields|, i requires 0 <= i < |fields| => MemberText(fields[i], t))
  }

  lemma MembersAreTexts(fields: seq<Investigator.Field>, t: string)
    ensures Each(Map(Investigator.MemberLine, fields), t) == MemberTexts(fields, t)
  {
    forall i | 0 <= i < |fields|
      ensures Render(Investigator.MemberLine(fields[i]), t) == MemberText(fields[i], t)
    {
      Investigator.RenderMember(fields[i], t);
      if fields[i].item.FreeText? { QuotesAreFences(fields[i].item.text, t); }
    }
    hide Render, Investigator.MemberLine, MemberText;
  }

  lemma FreeTextNames()
    ensures var names := Investigator.FREE_TEXT_NAMES;
            && "summary" in names && "display_name" in names && "unit_label" in names && "detail" in names
            && "statement" in names && "description" in names && "speaker_org" !in names
  {
    var names := Investigator.FREE_TEXT_NAMES;
    assert names[0] == "summary" && names[1] == "display_name" && names[2] == "unit_label";
    assert names[3] == "detail" && names[4] == "statement" && names[5] == "description";
    assert |"speaker_org"| == 11 && |names[5]| == 11 && names[5][0] == 'd' && "speaker_org"[0] == 's';
    assert |names[0]| == 7 && |names[1]| == 12 && |names[2]| == 10 && |names[3]| == 6 && |names[4]| == 9;
  }

  /** One member printed as it is, and one quoted. */
  lemma PlainMember(name: Plain, words: Plain, t: string)
    ensures MemberText(Investigator.Field(name, Investigator.ClosedText(words)), t) == "    " + name + ": " + words
  {
  }

  lemma QuotedMember(name: Plain, text: string, t: string)
    requires name in Investigator.FREE_TEXT_NAMES
    ensures MemberText(Investigator.Field(name, Investigator.FreeText(text)), t) == "    " + name + ": " + Quote(text, t)
  {
  }

  function Member(name: string, shown: string): string { "    " + name + ": " + shown }

  /** The members a fact value shows, in order: which of them are quoted, and which are not. */
  lemma MembersRead(v: Investigator.FactValue, t: string)
    ensures Each(Map(Investigator.MemberLine, Investigator.Dump(v)), t) ==
            match v
            case IncidentOccurrence(at, equipment, mode) =>
              [Member("occurred_at", at), Member("equipment", equipment), Member("failure_mode", mode)]
            case ServiceImpact(code, summary) => [Member("impact_code", code), Member("summary", Quote(summary, t))]
            case LocationArea(area) => [Member("area", area)]
            case IdentityAttribute(name) => [Member("display_name", Quote(name, t))]
            case UnitLocation(unit) => [Member("unit_label", Quote(unit, t))]
            case HealthDetail(relation, detail) => [Member("subject_relation", relation), Member("detail", Quote(detail, t))]
            case ManagementStatement(statement, org, at) =>
              [Member("statement", Quote(statement, t)), Member("speaker_org", org), Member("stated_at", at)]
            case EvidenceDescription(description, kind) =>
              [Member("description", Quote(description, t)), Member("media_kind", kind)]
  {
    var fields := Investigator.Dump(v);
    MembersAreTexts(fields, t);
    FreeTextNames();
    hide Render, Investigator.MemberLine, Quote, Each, Map, Investigator.FREE_TEXT_NAMES;
    var texts := MemberTexts(fields, t);
    if |fields| == 1 {
      assert texts == [MemberText(fields[0], t)];
    } else if |fields| == 2 {
      assert texts == [MemberText(fields[0], t), MemberText(fields[1], t)];
    } else {
      assert texts == [MemberText(fields[0], t), MemberText(fields[1], t), MemberText(fields[2], t)];
    }
  }

  /** A report: its reporter, when it happened and its sources, then its own summary. */
  lemma ReportReads(r: Investigator.Report, t: string)
    ensures Render(Investigator.ReportLine(r), t) ==
            "- report_id=" + r.reportId + " reporter=" + r.pseudonym +
            ((if r.occurredAt.None? then "" else " occurred_at=" + r.occurredAt.value) +
             " source_message_ids=" + PlainJoin(",", r.sourceMessageIds) + "\n    summary: ") +
            Quote(r.summary, t)
  {
    var line := Investigator.ReportLine(r);
    assert line == [line[0], line[1], line[2]] + [line[3]];
    RenderConcat([line[0], line[1], line[2]], [line[3]], t);
    Render3(line[0], line[1], line[2], t);
    Render1(line[3], t);
    QuotesAreFences(r.summary, t);
  }

  function OptionalText(words: string, o: Option<string>, t: string): seq<string> {
    if o.None? then [] else [words + Quote(o.value, t)]
  }

  lemma OptionalReads(words: Plain, o: Option<string>, t: string)
    ensures Each(Investigator.OptionalLine(words, o), t) == OptionalText(words, o, t)
  {
    if o.Some? {
      Render2(Closed(words), Quoted(o.value), t);
      QuotesAreFences(o.value, t);
    }
  }

  function EvidenceHeaderText(e: Investigator.Evidence): string {
    "- evidence_id=" + e.evidenceId + " root_id=" + e.rootId + " submitted_by=" + e.pseudonym + " media_type=" +
    (e.mediaType +
     (" sha256=" + e.sha256 + (if e.derivedFrom.None? then "" else " derived_from_evidence_id=" + e.derivedFrom.value)))
  }

  lemma EvidenceHeaderReads(e: Investigator.Evidence, t: string)
    ensures Render(Investigator.EvidenceHeader(e), t) == EvidenceHeaderText(e)
  {
    var header := Investigator.EvidenceHeader(e);
    Render5(header[0], header[1], header[2], header[3], header[4], t);
  }

  /** A piece of evidence: where it comes from and its digest, then its own caption and text. */
  lemma EvidenceReads(e: Investigator.Evidence, t: string)
    ensures Render(Investigator.EvidenceLine(e), t) ==
            Join("\n", [EvidenceHeaderText(e)] +
                       OptionalText("    caption: ", e.machineCaption, t) +
                       OptionalText("    extracted_text: ", e.extractedText, t))
  {
    hide Render, Investigator.EvidenceHeader, EvidenceHeaderText, Join, Investigator.OptionalLine, OptionalText;
    var header, lines := Investigator.EvidenceHeader(e), Investigator.EvidenceLines(e);
    var captions := Investigator.OptionalLine("    caption: ", e.machineCaption);
    var texts := Investigator.OptionalLine("    extracted_text: ", e.extractedText);
    EvidenceHeaderReads(e, t);
    LinesRender(lines, t);
    OptionalReads("    caption: ", e.machineCaption, t);
    OptionalReads("    extracted_text: ", e.extractedText, t);
    EachConcat([header] + captions, texts, t);
    EachConcat([header], captions, t);
    assert Each([header], t) == [Render(header, t)];
  }

  /** The case, and the order of the sections. */
  lemma CaseReads(p: Investigator.InvestigationInput, t: string)
    ensures Each(Investigator.CaseSection(p), t) ==
            ["", "CORROBORATION MINIMUM: " + Decimal(p.corroborationMin), "", "CASE",
             "- case_id=" + p.caseId + " version=" + Decimal(p.caseVersion) + " issue_type=" + p.issueType +
             " state=" + p.state + " title=" + Quote(p.title, t)]
  {
    var minimum: Plain, title := "CORROBORATION MINIMUM: " + Decimal(p.corroborationMin), Investigator.TitleLine(p);
    RenderHeading(minimum, t);
    RenderHeading("CASE", t);
    Render2(title[0], title[1], t);
    QuotesAreFences(p.title, t);
    EachConcat(Heading(minimum), Heading("CASE"), t);
    EachAppend(Heading(minimum) + Heading("CASE"), title, t);
  }

  lemma InvestigationReads(p: Investigator.InvestigationInput, t: string)
    ensures Each(Investigator.InvestigationLines(p), t) ==
            Each(Investigator.CaseSection(p), t) +
            (["", "REPORTS"] + Each(Map(Investigator.ReportLine, p.reports), t)) +
            (["", "FACTS"] + Each(Map(Investigator.FactLine, p.facts), t)) +
            ((["", "EVIDENCE"] + (if p.evidence == [] then ["- none"] else []) + Each(Map(Investigator.EvidenceLine, p.evidence), t)) +
             Each(Investigator.PriorSection(p), t))
  {
    hide Investigator.CaseSection, Investigator.ReportLine, Investigator.FactLine, Investigator.EvidenceLine, Investigator.PriorSection;
    RenderHeading("REPORTS", t);
    RenderHeading("FACTS", t);
    RenderHeading("EVIDENCE", t);
    Render1(Closed("- none"), t);
    hide Render, Heading;
    EachConcat(Heading("REPORTS"), Map(Investigator.ReportLine, p.reports), t);
    EachConcat(Heading("FACTS"), Map(Investigator.FactLine, p.facts), t);
    EachConcat(Heading("EVIDENCE"), Investigator.NoEvidence(p), t);
    EachConcat(Heading("EVIDENCE") + Investigator.NoEvidence(p), Map(Investigator.EvidenceLine, p.evidence), t);
    assert Each(Investigator.NoEvidence(p), t) == if p.evidence == [] then ["- none"] else [];
    EachConcat(Investigator.EvidenceSection(p), Investigator.PriorSection(p), t);
    EachConcat(Investigator.CaseSection(p), Investigator.ReportSection(p), t);
    EachConcat(Investigator.CaseSection(p) + Investigator.ReportSection(p), Investigator.FactSection(p), t);
    EachConcat(Investigator.CaseSection(p) + Investigator.ReportSection(p) + Investigator.FactSection(p),
      Investigator.EvidenceSection(p) + Investigator.PriorSection(p), t);
  }

  function FindingTexts(findings: seq<Investigator.Finding>): seq<string> {
    seq(|findings|, i requires 0 <= i < |findings| => "    fact " + findings[i].factId + " was " + findings[i].status)
  }

  /** What was assessed before, if anything was. */
  lemma PriorReads(p: Investigator.InvestigationInput, t: string)
    ensures Each(Investigator.PriorSection(p), t) ==
            if p.prior.None? then []
            else
              ["", "PREVIOUS ASSESSMENT",
               "- assessment_id=" + p.prior.value.assessmentId + " based_on_case_version=" + Decimal(p.prior.value.caseVersion)] +
              FindingTexts(p.prior.value.findings)
  {
    if p.prior.Some? {
      var prior := p.prior.value;
      var lines := Map(Investigator.FindingLine, prior.findings);
      RenderHeading("PREVIOUS ASSESSMENT", t);
      Render1(Investigator.PriorLine(prior)[0], t);
      forall i | 0 <= i < |prior.findings|
        ensures Render(Investigator.FindingLine(prior.findings[i]), t) ==
                "    fact " + prior.findings[i].factId + " was " + prior.findings[i].status
      {
        Render1(Investigator.FindingLine(prior.findings[i])[0], t);
      }
      hide Render;
      EachConcat(Heading("PREVIOUS ASSESSMENT") + [Investigator.PriorLine(prior)], lines, t);
      EachAppend(Heading("PREVIOUS ASSESSMENT"), Investigator.PriorLine(prior), t);
      assert Each(lines, t) == FindingTexts(prior.findings);
    }
  }

  // ---------- The action message ----------

  lemma BindingTitle()
    ensures Action.BINDING == "BINDING VALUES (copy each into the field " + "of the same name, exactly as written)"
    ensures Action.ATTACHED == "ATTACHED SAFE EVIDENCE (referenced " + "by facts; you cannot link to it)"
  {
  }

  /** The five values the answer has to repeat, and the view they belong to. */
  lemma BindingReads(p: Action.ActionInput, t: string)
    ensures Each(Action.BindingSection(p), t) ==
            ["", "BINDING VALUES (copy each into the field " + "of the same name, exactly as written)",
             "- case_id=" + p.caseId, "- case_version=" + Decimal(p.caseVersion),
             "- authorization_version=" + Decimal(p.authorizationVersion),
             "- view_id=" + p.viewId, "- view_hash=" + p.viewHash]
  {
    var lines := Action.BindingSection(p);
    forall i | 1 <= i < 7 ensures Render(lines[i], t) == lines[i][0].words { Render1(lines[i][0], t); }
    BindingTitle();
  }

  lemma ViewReads(p: Action.ActionInput, t: string)
    ensures Each(Action.ViewSection(p), t) ==
            ["", "VIEW", "- community: " + Quote(p.communityLabel, t),
             "- recipient organisation: " + Quote(p.destinationLabel, t),
             "- purpose=" + p.purpose, "- generated_at=" + p.generatedAt]
  {
    var lines := Action.ViewSection(p);
    Render1(lines[1][0], t);
    Render2(lines[2][0], lines[2][1], t);
    Render2(lines[3][0], lines[3][1], t);
    Render1(lines[4][0], t);
    Render1(lines[5][0], t);
    QuotesAreFences(p.communityLabel, t);
    QuotesAreFences(p.destinationLabel, t);
  }

  lemma SafeFactReads(f: Action.SafeFact, t: string)
    ensures Render(Action.FactLine(f), t) ==
            "- export_fact_id=" + f.exportFactId + " type=" + f.factType + " evidence_status=" + f.evidenceStatus +
            " contributors=" + Decimal(f.contributorCount) + "\n    text: " + Quote(f.safeText, t)
  {
    var line := Action.FactLine(f);
    Render2(line[0], line[1], t);
    QuotesAreFences(f.safeText, t);
  }

  lemma ReferenceReads(r: Action.EvidenceRef, t: string)
    ensures Render(Action.RefLine(r), t) ==
            "- safe_evidence_ref_id=" + r.refId + " media_type=" + r.mediaType + "\n    caption: " + Quote(r.caption, t)
  {
    var line := Action.RefLine(r);
    assert line == [line[0], line[1], line[2]] + [line[3]];
    RenderConcat([line[0], line[1], line[2]], [line[3]], t);
    Render3(line[0], line[1], line[2], t);
    Render1(line[3], t);
    QuotesAreFences(r.caption, t);
  }

  lemma ActionReads(p: Action.ActionInput, t: string)
    ensures Each(Action.ActionLines(p), t) ==
            Each(Action.BindingSection(p), t) + Each(Action.ViewSection(p), t) +
            (["", "FACTS YOU MAY CITE"] + Each(Map(Action.FactLine, p.facts), t)) +
            if p.evidenceRefs == [] then []
            else ["", "ATTACHED SAFE EVIDENCE (referenced " + "by facts; you cannot link to it)"] + Each(Map(Action.RefLine, p.evidenceRefs), t)
  {
    hide Action.BindingSection, Action.ViewSection, Action.FactLine, Action.RefLine;
    BindingTitle();
    RenderHeading("FACTS YOU MAY CITE", t);
    RenderHeading(Action.ATTACHED, t);
    hide Render, Heading;
    EachConcat(Heading("FACTS YOU MAY CITE"), Map(Action.FactLine, p.facts), t);
    EachConcat(Heading(Action.ATTACHED), Map(Action.RefLine, p.evidenceRefs), t);
    EachConcat(Action.BindingSection(p), Action.ViewSection(p), t);
    EachConcat(Action.BindingSection(p) + Action.ViewSection(p), Action.FactSection(p), t);
    EachConcat(Action.BindingSection(p) + Action.ViewSection(p) + Action.FactSection(p), Action.RefSection(p), t);
  }

  // ---------- The line a reader finds a value on ----------

  function FirstBreak(s: string): (n: nat)
    ensures n <= |s| && '\n' !in s[..n] && (n < |s| ==> s[n] == '\n')
  {
    if s == "" || s[0] == '\n' then 0 else 1 + FirstBreak(s[1..])
  }

  /** Line `k` of a text, if it has that many. */
  function LineAt(s: string, k: nat): Option<string>
    decreases k
  {
    var n := FirstBreak(s);
    if k == 0 then Some(s[..n])
    else if n == |s| then None
    else LineAt(s[n + 1..], k - 1)
  }

  lemma {:induction false} BreakAfter(a: string, rest: string)
    requires '\n' !in a
    ensures FirstBreak(a + "\n" + rest) == |a| && FirstBreak(a) == |a|
  {
    if a == "" {
      assert a + "\n" + rest == "\n" + rest;
    } else {
      BreakAfter(a[1..], rest);
      assert (a + "\n" + rest)[1..] == a[1..] + "\n" + rest;
    }
  }

  /** Lines without a break of their own are found where they were put. */
  lemma {:induction false} LineOfJoin(parts: seq<string>, k: nat)
    requires k < |parts| && forall i :: 0 <= i <= k ==> '\n' !in parts[i]
    requires k + 1 < |parts|
    ensures LineAt(Join("\n", parts), k) == Some(parts[k])
  {
    var rest := Join("\n", parts[1..]);
    var s := parts[0] + "\n" + rest;
    BreakAfter(parts[0], rest);
    assert Join("\n", parts) == s && s[..|parts[0]|] == parts[0] && s[|parts[0]| + 1..] == rest;
    if k != 0 { LineOfJoin(parts[1..], k - 1); }
  }

  predicate OneLine(s: string) { '\n' !in s }

  lemma DecimalIsOneLine(n: nat)
    ensures OneLine(Decimal(n))
  {
    var s := Decimal(n);
    assert forall i :: 0 <= i < |s| ==> IsDigit(s[i]);
  }

  lemma OneLineConcat(a: string, b: string)
    requires OneLine(a) && OneLine(b)
    ensures OneLine(a + b)
  {
  }

  lemma BindingValuesAt(p: Action.ActionInput, t: string)
    ensures var binding := Each(Action.BindingSection(p), t);
            && |binding| == 7 && binding[2] == "- case_id=" + p.caseId && binding[3] == "- case_version=" + Decimal(p.caseVersion)
            && binding[4] == "- authorization_version=" + Decimal(p.authorizationVersion)
            && binding[5] == "- view_id=" + p.viewId && binding[6] == "- view_hash=" + p.viewHash
  {
    hide Decimal, Each, Action.BindingSection;
    BindingReads(p, t);
  }

  lemma MessageStarts(p: Action.ActionInput, t: string) returns (rest: seq<string>)
    ensures 2 <= |rest|
    ensures Message(DATA_FORMAT, t, Action.ActionBody(p)) ==
            Join("\n", [Header(DATA_FORMAT, t)] + Each(Action.BindingSection(p), t) + rest)
  {
    var lines := Action.ActionLines(p);
    MessageOfLines(DATA_FORMAT, t, lines);
    ActionReads(p, t);
    ViewReads(p, t);
    var binding := Each(Action.BindingSection(p), t);
    hide Header, Render, Action.ActionLines, Action.BindingSection, Action.ViewSection, Message, Join;
    rest := Each(lines, t)[|binding|..];
    assert Each(lines, t) == binding + rest;
    assert [Header(DATA_FORMAT, t)] + (binding + rest) == [Header(DATA_FORMAT, t)] + binding + rest;
  }

  lemma PartsOfMessage(parts: seq<string>, header: string, binding: seq<string>)
    requires |binding| == 7 && 9 < |parts| && parts[0] == header && forall i :: 0 <= i < 7 ==> parts[i + 1] == binding[i]
    requires OneLine(header) && forall i :: 0 <= i < 7 ==> OneLine(binding[i])
    ensures forall i :: 2 <= i < 7 ==> LineAt(Join("\n", parts), i + 1) == Some(binding[i])
  {
    forall i: nat | 2 <= i < 7 ensures LineAt(Join("\n", parts), i + 1) == Some(binding[i]) {
      forall k | 0 <= k <= i + 1 ensures '\n' !in parts[k] {
        assert k == 0 || parts[k] == binding[k - 1];
        assert OneLine(parts[k]);
      }
      LineOfJoin(parts, i + 1);
    }
  }

  lemma FixedPartsAreOneLine()
    ensures OneLine("<<<") && OneLine(">>>") && OneLine("- case_id=") && OneLine("- case_version=")
    ensures OneLine("- view_id=") && OneLine("- view_hash=") && OneLine("VIEW") && OneLine("REPLY")
  {
  }

  lemma LeadIsOneLine()
    ensures OneLine(DATA_FORMAT.lead)
  {
  }

  lemma MiddleIsOneLine()
    ensures OneLine(DATA_FORMAT.middle)
  {
  }

  lemma HeaderIsOneLine(t: string)
    requires OneLine(t)
    ensures OneLine(Header(DATA_FORMAT, t))
  {
    FixedPartsAreOneLine();
    LeadIsOneLine();
    MiddleIsOneLine();
    hide OneLine;
    OneLineConcat("<<<", t);
    OneLineConcat(t, ">>>");
    OneLineConcat(DATA_FORMAT.lead, Opening(t));
    OneLineConcat(DATA_FORMAT.lead + Opening(t), DATA_FORMAT.middle);
    OneLineConcat(DATA_FORMAT.lead + Opening(t) + DATA_FORMAT.middle, Closing(t));
  }

  lemma AuthorizationIsOneLine()
    ensures OneLine("- authorization_version=")
  {
  }

  lemma TitleStartIsOneLine()
    ensures OneLine(Action.BINDING_VALUES)
  {
  }

  lemma TitleEndIsOneLine()
    ensures OneLine(Action.EXACTLY)
  {
  }

  lemma TitleIsOneLine()
    ensures OneLine(Action.BINDING)
  {
    TitleStartIsOneLine();
    TitleEndIsOneLine();
    hide OneLine;
    OneLineConcat(Action.BINDING_VALUES, Action.EXACTLY);
  }

  lemma BindingIsOneLine(p: Action.ActionInput, t: string)
    requires OneLine(p.caseId) && OneLine(p.viewId) && OneLine(p.viewHash)
    ensures |Each(Action.BindingSection(p), t)| == 7
    ensures forall i :: 0 <= i < 7 ==> OneLine(Each(Action.BindingSection(p), t)[i])
  {
    assert OneLine("");
    DecimalIsOneLine(p.caseVersion);
    DecimalIsOneLine(p.authorizationVersion);
    FixedPartsAreOneLine();
    AuthorizationIsOneLine();
    TitleIsOneLine();
    BindingTitle();
    BindingReads(p, t);
    hide Action.BindingSection, Each, OneLine, Action.BINDING;
    OneLineConcat("- case_id=", p.caseId);
    OneLineConcat("- case_version=", Decimal(p.caseVersion));
    OneLineConcat("- authorization_version=", Decimal(p.authorizationVersion));
    OneLineConcat("- view_id=", p.viewId);
    OneLineConcat("- view_hash=", p.viewHash);
  }

  /**
   The values an answer to the action message has to repeat can be found without any knowledge of
   the payload: each stands alone on its own line under its own name, whatever the rest holds.
   */
  lemma BindingFound(p: Action.ActionInput, t: string)
    requires OneLine(t) && OneLine(p.caseId) && OneLine(p.viewId) && OneLine(p.viewHash)
    ensures var message := Message(DATA_FORMAT, t, Action.ActionBody(p));
            && LineAt(message, 3) == Some("- case_id=" + p.caseId)
            && LineAt(message, 4) == Some("- case_version=" + Decimal(p.caseVersion))
            && LineAt(message, 5) == Some("- authorization_version=" + Decimal(p.authorizationVersion))
            && LineAt(message, 6) == Some("- view_id=" + p.viewId)
            && LineAt(message, 7) == Some("- view_hash=" + p.viewHash)
  {
    var header, binding := Header(DATA_FORMAT, t), Each(Action.BindingSection(p), t);
    hide Header, Render, Action.ActionBody, Action.BindingSection, Each, Message, Join, LineAt, OneLine, Decimal;
    var rest := MessageStarts(p, t);
    HeaderIsOneLine(t);
    BindingIsOneLine(p, t);
    PartsOfMessage([header] + binding + rest, header, binding);
    BindingValuesAt(p, t);
    var message := Message(DATA_FORMAT, t, Action.ActionBody(p));
    assert LineAt(message, 2 + 1) == Some(binding[2]) && LineAt(message, 3 + 1) == Some(binding[3]);
    assert LineAt(message, 4 + 1) == Some(binding[4]) && LineAt(message, 5 + 1) == Some(binding[5]);
    assert LineAt(message, 6 + 1) == Some(binding[6]);
  }

  // ---------- The commitment message ----------

  lemma ReplyLeadIsOneLine()
    ensures OneLine(REPLY_FORMAT.lead)
  {
  }

  lemma ReplyMiddleIsOneLine()
    ensures OneLine(REPLY_FORMAT.middle)
  {
  }

  lemma ReplyHeaderIsOneLine(t: string)
    requires OneLine(t)
    ensures OneLine(Header(REPLY_FORMAT, t))
  {
    FixedPartsAreOneLine();
    ReplyLeadIsOneLine();
    ReplyMiddleIsOneLine();
    hide OneLine;
    OneLineConcat("<<<", t);
    OneLineConcat(t, ">>>");
    OneLineConcat(REPLY_FORMAT.lead, Opening(t));
    OneLineConcat(REPLY_FORMAT.lead + Opening(t), REPLY_FORMAT.middle);
    OneLineConcat(REPLY_FORMAT.lead + Opening(t) + REPLY_FORMAT.middle, Closing(t));
  }

  lemma ReplyLabelsAreOneLine()
    ensures OneLine("case_id=") && OneLine("source_evidence_id=") && OneLine("CORRESPONDENT: ")
  {
  }

  function ExtractionLines(p: Commitment.ExtractionInput, t: string): seq<string> {
    [Header(REPLY_FORMAT, t), "", "case_id=" + p.caseId, "source_evidence_id=" + p.sourceEvidenceId,
     "CORRESPONDENT: " + p.destinationLabel, "", "REPLY", Quote(p.replyText, t)]
  }

  lemma ExtractionIsJoined(p: Commitment.ExtractionInput, t: string)
    ensures Commitment.RenderCommitmentUserMessage(p, t) == Join("\n", ExtractionLines(p, t))
  {
    hide Join;
    assert Quote(p.replyText, t) == "<<<" + t + p.replyText + (t + ">>>");
  }

  /** What the extraction is about stands before the reply, on lines of its own. */
  lemma ExtractionFound(p: Commitment.ExtractionInput, t: string)
    requires OneLine(t) && OneLine(p.caseId) && OneLine(p.sourceEvidenceId) && OneLine(p.destinationLabel)
    ensures var message := Commitment.RenderCommitmentUserMessage(p, t);
            && LineAt(message, 2) == Some("case_id=" + p.caseId)
            && LineAt(message, 3) == Some("source_evidence_id=" + p.sourceEvidenceId)
            && LineAt(message, 4) == Some("CORRESPONDENT: " + p.destinationLabel)
            && LineAt(message, 6) == Some("REPLY")
  {
    var parts := ExtractionLines(p, t);
    ExtractionIsJoined(p, t);
    ReplyHeaderIsOneLine(t);
    ReplyLabelsAreOneLine();
    FixedPartsAreOneLine();
    assert OneLine("");
    OneLineConcat("case_id=", p.caseId);
    OneLineConcat("source_evidence_id=", p.sourceEvidenceId);
    OneLineConcat("CORRESPONDENT: ", p.destinationLabel);
    assert forall i :: 0 <= i < 7 ==> OneLine(parts[i]);
    hide LineAt, Join, Header, ExtractionLines, Commitment.RenderCommitmentUserMessage;
    LineOfJoin(parts, 2);
    LineOfJoin(parts, 3);
    LineOfJoin(parts, 4);
    LineOfJoin(parts, 6);
  }
}
