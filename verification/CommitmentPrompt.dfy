/** The commitment-extraction message: one fenced reply whose character offsets must survive. */
module CommitmentPrompt {
  import opened Text
  import opened Fencing
  import opened PromptDocument

  datatype ExtractionInput = ExtractionInput(
    caseId: Plain, sourceEvidenceId: Plain, destinationLabel: string, replyText: string)

  /** Render one reply as fixed labels around a single fenced block. */
  function RenderCommitmentUserMessage(p: ExtractionInput, fence: string): string {
    var opening, closing := "<<<" + fence, fence + ">>>";
    Join("\n",
         ["DATA MARKERS: the reply opens with " + opening + " and closes with " + closing,
          "",
          "case_id=" + p.caseId,
          "source_evidence_id=" + p.sourceEvidenceId,
          "CORRESPONDENT: " + p.destinationLabel,
          "",
          "REPLY",
          opening + p.replyText + closing])
  }

  function LabelLines(p: ExtractionInput): seq<Line> {
    [[], [Closed("case_id=" + p.caseId)], [Closed("source_evidence_id=" + p.sourceEvidenceId)],
     [Closed("CORRESPONDENT: "), Open(p.destinationLabel)]]
  }

  function ReplyLines(p: ExtractionInput): seq<Line> { Heading("REPLY") + [[Quoted(p.replyText)]] }

  function CommitmentLines(p: ExtractionInput): seq<Line> { LabelLines(p) + ReplyLines(p) }

  function CommitmentBody(p: ExtractionInput): seq<Piece> { Lines(CommitmentLines(p)) }

  lemma RendersAsMessage(p: ExtractionInput, t: string)
    ensures RenderCommitmentUserMessage(p, t) == Message(REPLY_FORMAT, t, CommitmentBody(p))
  {
    var ls := CommitmentLines(p);
    Render1(ls[1][0], t);
    Render1(ls[2][0], t);
    Render2(ls[3][0], ls[3][1], t);
    Render1(ls[5][0], t);
    Render1(ls[6][0], t);
    MessageOfLines(REPLY_FORMAT, t, ls);
    var rendered := ["", "case_id=" + p.caseId, "source_evidence_id=" + p.sourceEvidenceId,
                     "CORRESPONDENT: " + p.destinationLabel, "", "REPLY", Fence(p.replyText, t)];
    assert rendered == Each(ls, t);
    assert [Header(REPLY_FORMAT, t)] + rendered ==
      [Header(REPLY_FORMAT, t), "", rendered[1], rendered[2], rendered[3], "", "REPLY", rendered[6]];
  }

  lemma LabelsHold(p: ExtractionInput)
    ensures Holds(LabelLines(p), [], [p.destinationLabel])
  {
    var ls := LabelLines(p);
    Contents1(ls[1][0]);
    Contents1(ls[2][0]);
    Contents2(ls[3][0], ls[3][1]);
    HoldsLine([]);
    HoldsLine(ls[1]);
    HoldsLine(ls[2]);
    HoldsLine(ls[3]);
    hide Holds;
    HoldsConcat([[]], [ls[1]], [], [], [], []);
    HoldsConcat([ls[2]], [ls[3]], [], [], [], [p.destinationLabel]);
    HoldsConcat([[]] + [ls[1]], [ls[2]] + [ls[3]], [], [], [], [p.destinationLabel]);
    assert ls == [[]] + [ls[1]] + ([ls[2]] + [ls[3]]);
  }

  lemma ReplyHolds(p: ExtractionInput)
    ensures Holds(ReplyLines(p), [p.replyText], [])
  {
    HoldsHeading("REPLY");
    Contents1(Quoted(p.replyText));
    HoldsLine([Quoted(p.replyText)]);
    hide Holds;
    HoldsConcat(Heading("REPLY"), [[Quoted(p.replyText)]], [], [], [p.replyText], []);
  }

  lemma BodyContents(p: ExtractionInput)
    ensures Values(CommitmentBody(p)) == [p.replyText]
    ensures OpenTexts(CommitmentBody(p)) == [p.destinationLabel]
    ensures WellSpaced(CommitmentBody(p))
  {
    hide Holds, LabelLines, ReplyLines;
    LabelsHold(p);
    ReplyHolds(p);
    HoldsConcat(LabelLines(p), ReplyLines(p), [], [p.destinationLabel], [p.replyText], []);
    HoldsJoined(CommitmentLines(p), [p.replyText], [p.destinationLabel]);
  }

  /** The reader of this message recovers the reply, whole and alone, exactly when the label forges no marker. */
  lemma CommitmentRoundTrip(p: ExtractionInput, t: string)
    requires IsToken(t) && !Occurs(t, p.replyText)
    ensures ReadMessage(REPLY_FORMAT, RenderCommitmentUserMessage(p, t)) == Some((t, [p.replyText])) <==>
            !Occurs(Opening(t), p.destinationLabel)
  {
    RendersAsMessage(p, t);
    BodyContents(p);
    MessageReadsBack(REPLY_FORMAT, t, CommitmentBody(p));
    assert InAny(Opening(t), [p.destinationLabel]) <==> Occurs(Opening(t), p.destinationLabel);
  }

  // ---------- Offsets ----------

  /** Where a reader looks for offset 0: after the first opening marker past the header line. */
  ghost function LocatedReply(message: string, t: string): int {
    var body := |Header(REPLY_FORMAT, t)| + 1;
    if body <= |message| then body + Find(Opening(t), message[body..]) + |Opening(t)| else 0
  }

  /** Where the reply really starts: its block ends the message. */
  function ReplyOffset(p: ExtractionInput, t: string): int {
    |RenderCommitmentUserMessage(p, t)| - |Closing(t)| - |p.replyText|
  }

  /** Every span of the value is the same span of the message, shifted by `o`. */
  ghost predicate SpansAt(value: string, message: string, o: int) {
    && 0 <= o && o + |value| <= |message|
    && forall s, e :: 0 <= s <= e <= |value| ==> message[o + s..o + e] == value[s..e]
  }

  /** The body is one text run, then the fenced reply, then nothing. */
  lemma BodyShape(p: ExtractionInput, t: string) returns (gap: string)
    requires IsToken(t)
    ensures RenderCommitmentUserMessage(p, t) == Header(REPLY_FORMAT, t) + "\n" + (gap + Honest(p.replyText, "", t))
    ensures Occurs(Opening(t), gap) <==> Occurs(Opening(t), p.destinationLabel)
  {
    hide RenderCommitmentUserMessage, Header;
    var body := CommitmentBody(p);
    RendersAsMessage(p, t);
    BodyContents(p);
    RenderIsWeave(body, t);
    OnlyOpenTextsForge(body, t);
    LinesEnd(CommitmentLines(p));
    LastGapEmpty(body);
    gap := Gaps(body)[0];
    assert Gaps(body) == [gap, ""];
    assert Gaps(body)[1..] == [""];
    assert !Occurs(Opening(t), "");
  }

  lemma LocateFirst(gap: string, block: string, t: string)
    requires IsToken(t) && Opening(t) <= block
    ensures Find(Opening(t), gap + block) == |gap| <==> !Occurs(Opening(t), gap)
  {
    MarkersUnbordered(t);
    if i :| At(Opening(t), gap, i) {
      AtLeft(Opening(t), gap, block, i);
    } else {
      FirstMarker(Opening(t), gap, block);
    }
  }

  lemma LocatesReply(gap: string, block: string, t: string)
    requires IsToken(t) && Opening(t) <= block
    ensures var head := Header(REPLY_FORMAT, t) + "\n";
            LocatedReply(head + (gap + block), t) == |head| + |gap| + |Opening(t)| <==> !Occurs(Opening(t), gap)
  {
    hide Header, Opening, Occurs, Find;
    var head := Header(REPLY_FORMAT, t) + "\n";
    assert (head + (gap + block))[|head|..] == gap + block;
    LocateFirst(gap, block, t);
  }

  lemma Positions(head: string, gap: string, value: string, t: string)
    ensures var block := Honest(value, "", t);
            var message, o := head + (gap + block), |head| + |gap| + |Opening(t)|;
            && Opening(t) <= block && o + |value| + |Closing(t)| == |message|
            && At(Opening(t), message, o - |Opening(t)|) && SpansAt(value, message, o)
  {
    hide Opening, Closing;
    var message, o := head + (gap + Honest(value, "", t)), |head| + |gap| + |Opening(t)|;
    assert message == head + gap + Opening(t) + value + Closing(t);
    assert message[o - |Opening(t)|..o] == Opening(t);
    assert message[o..o + |value|] == value;
    forall s, e | 0 <= s <= e <= |value| ensures message[o + s..o + e] == value[s..e] {
      assert message[o + s..o + e] == message[o..o + |value|][s..e];
    }
  }

  /**
   Offsets survive the rendering: every span of the reply is the same span of the message, shifted
   by the reply's offset; and that offset is the one located from the first opening marker past the
   header exactly when the correspondent label, printed before it, holds no opening marker.
   */
  lemma OffsetsPreserved(p: ExtractionInput, t: string)
    requires IsToken(t)
    ensures var message, o := RenderCommitmentUserMessage(p, t), ReplyOffset(p, t);
            && At(Opening(t), message, o - |Opening(t)|) && SpansAt(p.replyText, message, o)
            && (LocatedReply(message, t) == o <==> !Occurs(Opening(t), p.destinationLabel))
  {
    hide RenderCommitmentUserMessage, Honest, Header, Opening, Closing, Occurs, SpansAt, At, LocatedReply;
    var gap := BodyShape(p, t);
    Positions(Header(REPLY_FORMAT, t) + "\n", gap, p.replyText, t);
    LocatesReply(gap, Honest(p.replyText, "", t), t);
  }
}
