/**
 The free texts the renderers print outside the markers. Each of them is no part of its renderer's
 collision check, and each has inputs its runtime accepts that pass the check and do not read back.
 */
module UnfencedText {
  import opened Text
  import opened Fencing
  import opened PromptDocument
  import opened Identifiers
  import Monitor = MonitorPrompt
  import Investigator = InvestigatorPrompt
  import Action = ActionPrompt
  import Commitment = CommitmentPrompt

  // ---------- What each runtime accepts ----------

  predicate Bounded(s: string, max: nat) { 1 <= |s| <= max }

  predicate OptionallyBounded(o: Option<string>, max: nat) { o.Some? ==> Bounded(o.value, max) }

  predicate Distinct(xs: seq<string>) { forall i, j :: 0 <= i < j < |xs| ==> xs[i] != xs[j] }

  const ISSUE_TYPES: seq<string> := ["ELEVATOR_FAILURE", "OTHER"]
  const SENSITIVITY_CATEGORIES: seq<string> :=
    ["GENERAL", "IDENTITY", "CONTACT", "UNIT_LOCATION", "HEALTH", "MINOR", "PRIVATE_QUOTE", "PRIVATE_EVIDENCE_URI"]
  const EVIDENCE_STATUSES: seq<string> := ["REPORTED", "CORROBORATED", "VERIFIED", "CONTRADICTED", "UNKNOWN"]
  const SAFE_FACT_TYPES: seq<string> :=
    ["INCIDENT_OCCURRENCE", "SERVICE_IMPACT", "LOCATION_AREA", "IDENTITY_ATTRIBUTE", "UNIT_LOCATION", "HEALTH_DETAIL",
     "MANAGEMENT_STATEMENT", "CONTRADICTION", "COMMITMENT_TERM", "EVIDENCE_DESCRIPTION"]
  const PURPOSE: Plain := "REQUEST_ELEVATOR_REPAIR_AND_RESPONSE"
  const CASE_STATES: seq<string> :=
    ["CANDIDATE", "AWAITING_MANDATES", "INVESTIGATING", "READY_FOR_ACTION", "ACTION_PROPOSED", "ACTIONED",
     "VERIFYING", "RESOLVED", "CLOSED_UNRESOLVED"]

  predicate MonitorMessageOk(m: Monitor.ResidentMessage) {
    && UuidText(m.messageId) && Bounded(m.pseudonym, 40) && Bounded(m.text, 10_000) && |m.attachments| <= 8
    && (forall a :: a in m.attachments ==>
          UuidText(a.evidenceId) && Bounded(a.mediaType, 120) && OptionallyBounded(a.safeCaption, 300))
    && Distinct(seq(|m.attachments|, i requires 0 <= i < |m.attachments| => m.attachments[i].evidenceId))
  }

  predicate SummaryOk(s: Monitor.CaseSummary) {
    && UuidText(s.caseId) && 1 <= s.caseVersion && Bounded(s.title, 160) && s.issueType in ISSUE_TYPES
    && |s.factSummaries| <= 20 && (forall f :: f in s.factSummaries ==> Bounded(f, 1_000))
  }

  predicate MonitorReceives(p: Monitor.MonitorInput) {
    && 1 <= |p.messages| <= 50 && (forall m :: m in p.messages ==> MonitorMessageOk(m))
    && Distinct(seq(|p.messages|, i requires 0 <= i < |p.messages| => p.messages[i].messageId))
    && |p.summaries| <= 20 && (forall s :: s in p.summaries ==> SummaryOk(s))
    && Distinct(seq(|p.summaries|, i requires 0 <= i < |p.summaries| => p.summaries[i].caseId))
    && |p.sensitiveCategories| <= 16 && Distinct(p.sensitiveCategories)
    && (forall c :: c in p.sensitiveCategories ==> c in SENSITIVITY_CATEGORIES)
    && 1 <= |p.issueTypes| <= 8 && Distinct(p.issueTypes) && (forall t :: t in p.issueTypes ==> t in ISSUE_TYPES)
  }

  predicate ReportOk(r: Investigator.Report) {
    && UuidText(r.reportId) && Bounded(r.pseudonym, 40) && Bounded(r.summary, 1_000)
    && 1 <= |r.sourceMessageIds| <= 10 && Distinct(r.sourceMessageIds)
    && (forall m :: m in r.sourceMessageIds ==> UuidText(m))
  }

  predicate FactValueOk(v: Investigator.FactValue) {
    match v
    case ServiceImpact(_, summary) => Bounded(summary, 500)
    case IdentityAttribute(name) => Bounded(name, 120)
    case UnitLocation(unit) => Bounded(unit, 40)
    case HealthDetail(_, detail) => Bounded(detail, 500)
    case ManagementStatement(statement, org, _) => Bounded(statement, 1_000) && Bounded(org, 120)
    case EvidenceDescription(description, _) => Bounded(description, 500)
    case _ => true
  }

  predicate FactOk(f: Investigator.Fact) {
    && UuidText(f.factId) && Bounded(f.pseudonym, 40) && FactValueOk(f.value)
    && f.sensitivity in SENSITIVITY_CATEGORIES && f.status in EVIDENCE_STATUSES
    && |f.evidenceIds| <= 10 && Distinct(f.evidenceIds)
  }

  predicate EvidenceOk(e: Investigator.Evidence) {
    && UuidText(e.evidenceId) && UuidText(e.rootId) && Bounded(e.pseudonym, 40) && Bounded(e.mediaType, 120)
    && DigestText(e.sha256) && (e.derivedFrom.Some? ==> UuidText(e.derivedFrom.value))
    && OptionallyBounded(e.extractedText, 4_000) && OptionallyBounded(e.machineCaption, 300)
  }

  predicate PriorOk(prior: Investigator.PriorAssessment) {
    && UuidText(prior.assessmentId) && 1 <= prior.caseVersion && |prior.findings| <= 100
    && (forall f :: f in prior.findings ==> UuidText(f.factId) && f.status in EVIDENCE_STATUSES)
    && Distinct(seq(|prior.findings|, i requires 0 <= i < |prior.findings| => prior.findings[i].factId))
  }

  function ReportIds(p: Investigator.InvestigationInput): seq<string> {
    seq(|p.reports|, i requires 0 <= i < |p.reports| => p.reports[i].reportId)
  }

  function EvidenceIds(p: Investigator.InvestigationInput): seq<string> {
    seq(|p.evidence|, i requires 0 <= i < |p.evidence| => p.evidence[i].evidenceId)
  }

  predicate InvestigatorReceives(p: Investigator.InvestigationInput) {
    && UuidText(p.caseId) && 1 <= p.caseVersion && Bounded(p.title, 160)
    && p.issueType in ISSUE_TYPES && p.state in CASE_STATES && p.corroborationMin == 2
    && 1 <= |p.reports| <= 25 && (forall r :: r in p.reports ==> ReportOk(r)) && Distinct(ReportIds(p))
    && |p.facts| <= 100 && (forall f :: f in p.facts ==> FactOk(f))
    && Distinct(seq(|p.facts|, i requires 0 <= i < |p.facts| => p.facts[i].factId))
    && |p.evidence| <= 60 && (forall e :: e in p.evidence ==> EvidenceOk(e)) && Distinct(EvidenceIds(p))
    && (forall f :: f in p.facts ==> f.reportId in ReportIds(p))
    && (forall f, id :: f in p.facts && id in f.evidenceIds ==> id in EvidenceIds(p))
    && (p.prior.Some? ==> PriorOk(p.prior.value))
  }

  /** The members of an action payload that its prompt prints; the others are not part of this model. */
  predicate ActionReceives(p: Action.ActionInput) {
    && UuidText(p.caseId) && UuidText(p.viewId) && DigestText(p.viewHash)
    && 1 <= p.caseVersion && 1 <= p.authorizationVersion && p.purpose == PURPOSE
    && Bounded(p.communityLabel, 120) && Bounded(p.destinationLabel, 120)
    && 1 <= |p.facts| <= 100
    && (forall f :: f in p.facts ==> UuidText(f.exportFactId) && 1 <= f.contributorCount && Bounded(f.safeText, 500) &&
                                     f.factType in SAFE_FACT_TYPES && f.evidenceStatus in EVIDENCE_STATUSES)
    && Distinct(seq(|p.facts|, i requires 0 <= i < |p.facts| => p.facts[i].exportFactId))
    && |p.evidenceRefs| <= 20
    && (forall r :: r in p.evidenceRefs ==> UuidText(r.refId) && Bounded(r.mediaType, 120) && Bounded(r.caption, 300))
    && Distinct(seq(|p.evidenceRefs|, i requires 0 <= i < |p.evidenceRefs| => p.evidenceRefs[i].refId))
  }

  predicate CommitmentReceives(p: Commitment.ExtractionInput) {
    && UuidText(p.caseId) && UuidText(p.sourceEvidenceId)
    && Bounded(p.destinationLabel, 120) && |p.replyText| <= 8 * 1024
  }

  // ---------- Inputs that pass the check and do not read back ----------

  lemma OneForged(t: string, texts: seq<string>)
    requires Opening(t) in texts
    ensures InAny(Opening(t), texts)
  {
    assert At(Opening(t), Opening(t), 0);
  }

  lemma ShortValuesPass(t: string, values: seq<string>)
    requires forall v :: v in values ==> |v| < |t|
    ensures !InAny(t, values)
  {
  }

  /** One message with one attachment. */
  function OneMessage(id: Plain, at: Plain, pseudonym: string, mediaType: string): Monitor.MonitorInput {
    Monitor.MonitorInput(
      [Monitor.ResidentMessage(id, pseudonym, at, "x", [Monitor.Attachment(id, mediaType, None)])], [], [], ["OTHER"])
  }

  lemma FlattenOne<A>(f: A -> seq<string>, x: A)
    ensures Flatten(f, [x]) == f(x)
  {
    assert [x][1..] == [];
  }

  lemma MessageReceived(id: Plain, at: Plain, pseudonym: string, mediaType: string)
    requires UuidText(id) && Bounded(pseudonym, 40) && Bounded(mediaType, 120)
    ensures MonitorReceives(OneMessage(id, at, pseudonym, mediaType))
  {
    hide UuidText;
    assert ISSUE_TYPES[1] == "OTHER";
  }

  lemma MessageContents(id: Plain, at: Plain, pseudonym: string, mediaType: string)
    ensures var p := OneMessage(id, at, pseudonym, mediaType);
            Monitor.CheckedValues(p) == ["x"] && Monitor.UnfencedTexts(p) == [pseudonym, mediaType]
  {
    var p := OneMessage(id, at, pseudonym, mediaType);
    var m := p.messages[0];
    var a := m.attachments[0];
    assert p.messages == [m] && m.attachments == [a] && m.attachments[1..] == [];
    assert m.text == "x" && Monitor.Captions(m.attachments) == [];
    assert Monitor.MessageValues(m) == ["x"] + [];
    FlattenOne(Monitor.MessageValues, m);
    FlattenOne(Monitor.MediaType, a);
    FlattenOne(Monitor.UnfencedInMessage, m);
  }

  /** A sender pseudonym or an attachment's media type can forge a marker of the monitor's prompt. */
  lemma MonitorForgery(t: string, id: Plain, at: Plain, pseudonym: string, mediaType: string)
    requires IsToken(t) && UuidText(id) && Bounded(pseudonym, 40) && Bounded(mediaType, 120)
    requires pseudonym == Opening(t) || mediaType == Opening(t)
    ensures var p := OneMessage(id, at, pseudonym, mediaType);
            && MonitorReceives(p) && !InAny(t, Monitor.CheckedValues(p))
            && ReadMessage(DATA_FORMAT, Message(DATA_FORMAT, t, Monitor.MonitorBody(p))) != Some((t, Monitor.RenderedValues(p)))
  {
    hide MonitorReceives, OneMessage, Monitor.CheckedValues, Monitor.UnfencedTexts, Monitor.MonitorBody, ReadMessage, InAny;
    var p := OneMessage(id, at, pseudonym, mediaType);
    MessageReceived(id, at, pseudonym, mediaType);
    MessageContents(id, at, pseudonym, mediaType);
    ShortValuesPass(t, Monitor.CheckedValues(p));
    OneForged(t, Monitor.UnfencedTexts(p));
    Monitor.MonitorRoundTrip(p, t);
  }

  /** One report, one management statement of it, and one piece of evidence. */
  function OneStatement(id: Plain, at: Plain, sha: Plain, pseudonym: string, mediaType: string, org: string): Investigator.InvestigationInput {
    Investigator.InvestigationInput(id, 1, "OTHER", "INVESTIGATING", "x",
      [Investigator.Report(id, pseudonym, "x", None, [id])],
      [Investigator.Fact(id, id, pseudonym, Investigator.ManagementStatement("x", org, at), "GENERAL", "REPORTED", [id])],
      [Investigator.Evidence(id, id, pseudonym, mediaType, sha, None, None, None)], None, 2)
  }

  lemma StatementContents(id: Plain, at: Plain, sha: Plain, pseudonym: string, mediaType: string, org: string)
    ensures var p := OneStatement(id, at, sha, pseudonym, mediaType, org);
            && Investigator.RenderedValues(p) == ["x", "x", "x"]
            && Investigator.UnfencedTexts(p) == [pseudonym, pseudonym, org, pseudonym, mediaType]
  {
    var p := OneStatement(id, at, sha, pseudonym, mediaType, org);
    var r, f, e := p.reports[0], p.facts[0], p.evidence[0];
    Investigator.ManagementMembers("x", org, at);
    FlattenOne(Investigator.ReportValues, r);
    FlattenOne(Investigator.FencedOfFact, f);
    FlattenOne(Investigator.RenderedEvidenceValues, e);
    FlattenOne(Investigator.UnfencedInReport, r);
    FlattenOne(Investigator.UnfencedInFact, f);
    FlattenOne(Investigator.UnfencedInEvidence, e);
  }

  lemma StatementReceived(id: Plain, at: Plain, sha: Plain, pseudonym: string, mediaType: string, org: string)
    requires UuidText(id) && DigestText(sha) && Bounded(pseudonym, 40) && Bounded(mediaType, 120) && Bounded(org, 120)
    ensures InvestigatorReceives(OneStatement(id, at, sha, pseudonym, mediaType, org))
  {
    hide UuidText, DigestText;
    var p := OneStatement(id, at, sha, pseudonym, mediaType, org);
    assert ISSUE_TYPES[1] == "OTHER" && CASE_STATES[2] == "INVESTIGATING";
    assert SENSITIVITY_CATEGORIES[0] == "GENERAL" && EVIDENCE_STATUSES[0] == "REPORTED";
    assert ReportIds(p) == [id] && EvidenceIds(p) == [id];
    assert ReportIds(p)[0] == id && EvidenceIds(p)[0] == id;
  }

  /**
   A contributor's pseudonym, a media type, or the organisation a management statement is attributed
   to can forge a marker of the investigator's prompt.
   */
  lemma InvestigatorForgery(t: string, id: Plain, at: Plain, sha: Plain, pseudonym: string, mediaType: string, org: string)
    requires IsToken(t) && UuidText(id) && DigestText(sha)
    requires Bounded(pseudonym, 40) && Bounded(mediaType, 120) && Bounded(org, 120)
    requires pseudonym == Opening(t) || mediaType == Opening(t) || org == Opening(t)
    ensures var p := OneStatement(id, at, sha, pseudonym, mediaType, org);
            && InvestigatorReceives(p) && !InAny(t, Investigator.CheckedValues(p))
            && ReadMessage(DATA_FORMAT, Message(DATA_FORMAT, t, Investigator.InvestigationBody(p))) !=
                 Some((t, Investigator.RenderedValues(p)))
  {
    hide InvestigatorReceives, OneStatement, ReadMessage, InAny, UuidText, DigestText;
    hide Investigator.CheckedValues, Investigator.RenderedValues, Investigator.UnfencedTexts, Investigator.InvestigationBody;
    var p := OneStatement(id, at, sha, pseudonym, mediaType, org);
    StatementReceived(id, at, sha, pseudonym, mediaType, org);
    StatementContents(id, at, sha, pseudonym, mediaType, org);
    Investigator.CheckedIsRendered(p);
    SameMembers(Investigator.CheckedValues(p), Investigator.RenderedValues(p));
    ShortValuesPass(t, Investigator.CheckedValues(p));
    OneForged(t, Investigator.UnfencedTexts(p));
    Investigator.InvestigatorRoundTrip(p, t);
  }

  /** One safe fact and one attachment. */
  function OneReference(id: Plain, at: Plain, hash: Plain, mediaType: string): Action.ActionInput {
    Action.ActionInput(id, 1, 1, id, hash, "x", "x", PURPOSE, at,
      [Action.SafeFact(id, "SERVICE_IMPACT", "REPORTED", 1, "x")], [Action.EvidenceRef(id, mediaType, "x")])
  }

  lemma ReferenceReceived(id: Plain, at: Plain, hash: Plain, mediaType: string)
    requires UuidText(id) && DigestText(hash) && Bounded(mediaType, 120)
    ensures ActionReceives(OneReference(id, at, hash, mediaType))
  {
    hide UuidText, DigestText;
    assert EVIDENCE_STATUSES[0] == "REPORTED" && SAFE_FACT_TYPES[1] == "SERVICE_IMPACT";
  }

  lemma ReferenceContents(id: Plain, at: Plain, hash: Plain, mediaType: string)
    ensures var p := OneReference(id, at, hash, mediaType);
            Action.CheckedValues(p) == ["x", "x", "x", "x"] && Action.UnfencedTexts(p) == [mediaType]
  {
    var p := OneReference(id, at, hash, mediaType);
    FlattenOne(Action.SafeText, p.facts[0]);
    FlattenOne(Action.RefCaption, p.evidenceRefs[0]);
    FlattenOne(Action.RefMediaType, p.evidenceRefs[0]);
  }

  /** An attachment's media type can forge a marker of the action prompt. */
  lemma ActionForgery(t: string, id: Plain, at: Plain, hash: Plain)
    requires IsToken(t) && |t| <= 117 && UuidText(id) && DigestText(hash)
    ensures var p := OneReference(id, at, hash, Opening(t));
            && ActionReceives(p) && !InAny(t, Action.CheckedValues(p))
            && ReadMessage(DATA_FORMAT, Message(DATA_FORMAT, t, Action.ActionBody(p))) != Some((t, Action.CheckedValues(p)))
  {
    hide ActionReceives, OneReference, ReadMessage, InAny, UuidText, DigestText;
    hide Action.CheckedValues, Action.UnfencedTexts, Action.ActionBody;
    var p := OneReference(id, at, hash, Opening(t));
    ReferenceReceived(id, at, hash, Opening(t));
    ReferenceContents(id, at, hash, Opening(t));
    ShortValuesPass(t, Action.CheckedValues(p));
    OneForged(t, Action.UnfencedTexts(p));
    Action.ActionRoundTrip(p, t);
  }

  /** The correspondent label can forge a marker of the commitment prompt, and misplaces every offset. */
  lemma CommitmentForgery(t: string, id: Plain, reply: string)
    requires IsToken(t) && |t| <= 117 && UuidText(id) && |reply| <= 8 * 1024 && !Occurs(t, reply)
    ensures var p := Commitment.ExtractionInput(id, id, Opening(t), reply);
            var message := Commitment.RenderCommitmentUserMessage(p, t);
            && CommitmentReceives(p)
            && ReadMessage(REPLY_FORMAT, message) != Some((t, [reply]))
            && Commitment.LocatedReply(message, t) != Commitment.ReplyOffset(p, t)
  {
    var p := Commitment.ExtractionInput(id, id, Opening(t), reply);
    assert At(Opening(t), Opening(t), 0);
    Commitment.CommitmentRoundTrip(p, t);
    Commitment.OffsetsPreserved(p, t);
  }

  /** Every token either derivation yields is short enough for each of these inputs. */
  lemma TokensFit(d: Derivation, digest: string -> HexDigest, attempt: nat)
    requires d.prefix in {DATA_PREFIX, REPLY_PREFIX}
    ensures var t := FenceToken(d, digest, attempt);
            IsToken(t) && Bounded(Opening(t), 40)
  {
    FenceTokenShape(d, digest, attempt);
  }
}
