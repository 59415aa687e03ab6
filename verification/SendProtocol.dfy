/**
 One approved execution, any number of deliveries: claim, prove ownership, at most one SES call,
 record the outcome. Any interleaving, lost answers, writes that land late, and crashes included.
 */
module SendProtocol {
  import opened Text

  datatype ExecutionState = DRAFT | APPROVED | SENDING | SENT | FAILED | SEND_UNKNOWN

  /** What SES answered, as far as the sender can prove it. */
  datatype Answer = Accepted | DefiniteFailure | Unknown

  /** One delivery of the send command, told apart by the claim owner it mints. */
  type Attempt = nat

  /** A conditional write of one delivery, each on the version its delivery read. */
  datatype Write =
    | Claim(who: Attempt, version: nat)
    | FailUnclaimed(who: Attempt, version: nat)
    | FailClaimed(who: Attempt, version: nat)
    | Settle(who: Attempt, version: nat, answer: Answer)

  /** What last moved the row. */
  datatype Cause = ByHuman | BySender(write: Write) | BySweep | ByEvidence(sent: bool)

  datatype Row = Row(state: ExecutionState, version: nat, owner: Option<Attempt>, cause: Cause)

  /** Where a delivery has got to. */
  datatype Phase =
    | Ready(version: nat, retried: bool)
    | Unsure(version: nat, retried: bool)
    | Committed
    | Owned(version: nat)
    | Called(version: nat, answer: Answer)
    | Done

  datatype SesCall = SesCall(who: Attempt, answer: Answer)

  /** The row, the shared commit proof of the claim, writes still in flight, deliveries, and every SES call made. */
  datatype System = System(
    row: Row, proof: bool, inFlight: set<Write>, deliveries: map<Attempt, Phase>, calls: seq<SesCall>)

  /** How a write fares: answered, or its answer lost, having been applied now or still on its way. */
  datatype Fate = Heard | LostApplied | LostInFlight

  datatype Event =
    | Approve | Withdraw | Sweep | Reconcile(sent: bool)
    | Begin(who: Attempt)
    | FailEarly(who: Attempt, fate: Fate)
    | TryClaim(who: Attempt, fate: Fate)
    | Resolve(who: Attempt, readable: bool)
    | Verify(who: Attempt)
    | FailLate(who: Attempt, fate: Fate)
    | CallSes(who: Attempt, answer: Answer)
    | Record(who: Attempt, fate: Fate)
    | Land(write: Write)
    | Crash(who: Attempt)

  function Initial(): System { System(Row(DRAFT, 1, None, ByHuman), false, {}, map[], []) }

  // ---------- Storage ----------

  function SettledState(a: Answer): ExecutionState {
    match a case Accepted => SENT case DefiniteFailure => FAILED case Unknown => SEND_UNKNOWN
  }

  function Moved(r: Row, to: ExecutionState, cause: Cause): Row { Row(to, r.version + 1, r.owner, cause) }

  /** Every write is conditional on the row version; the claim also creates the one commit proof of the execution. */
  predicate Applies(s: System, w: Write) { s.row.version == w.version && (w.Claim? ==> !s.proof) }

  function Apply(s: System, w: Write): System {
    if !Applies(s, w) then s
    else
      match w
      case Claim(a, _) => s.(row := Row(SENDING, s.row.version + 1, Some(a), BySender(w)), proof := true)
      case Settle(_, _, answer) => s.(row := Moved(s.row, SettledState(answer), BySender(w)))
      case _ => s.(row := Moved(s.row, FAILED, BySender(w)))
  }

  function Issue(s: System, w: Write, fate: Fate): System {
    if fate.LostInFlight? then s.(inFlight := s.inFlight + {w}) else Apply(s, w)
  }

  function At(s: System, a: Attempt, p: Phase): System { s.(deliveries := s.deliveries[a := p]) }

  // ---------- Steps ----------

  /** Step 6b is `checksOwner`: the row has to say SENDING and name this delivery. */
  function DeliveryStep(s: System, e: Event, a: Attempt, p: Phase, checksOwner: bool): System {
    match e
    case FailEarly(_, fate) => if p.Ready? && !p.retried then At(Issue(s, FailUnclaimed(a, p.version), fate), a, Done) else s
    case TryClaim(_, fate) =>
      if !p.Ready? then s
      else
        var w := Claim(a, p.version);
        At(Issue(s, w, fate), a, if fate.Heard? then (if Applies(s, w) then Committed else Done) else Unsure(p.version, p.retried))
    case Resolve(_, readable) =>
      if !p.Unsure? then s
      else At(s, a, if !readable then Done else if s.proof then Committed else if p.retried then Done else Ready(p.version, true))
    case Verify(_) =>
      if !p.Committed? then s
      else At(s, a, if !checksOwner || (s.row.state == SENDING && s.row.owner == Some(a)) then Owned(s.row.version) else Done)
    case FailLate(_, fate) => if p.Owned? then At(Issue(s, FailClaimed(a, p.version), fate), a, Done) else s
    case CallSes(_, answer) => if p.Owned? then At(s.(calls := s.calls + [SesCall(a, answer)]), a, Called(p.version, answer)) else s
    case Record(_, fate) => if p.Called? then At(Issue(s, Settle(a, p.version, p.answer), fate), a, Done) else s
    case Crash(_) => At(s, a, Done)
    case _ => s
  }

  /** The replay table: only an execution found APPROVED is proceeded with. */
  function BeginStep(s: System, a: Attempt): System {
    if a in s.deliveries then s
    else At(s, a, if s.row.state == APPROVED then Ready(s.row.version, false) else Done)
  }

  function OtherStep(s: System, e: Event): System {
    match e
    case Approve => if s.row.state == DRAFT then s.(row := Moved(s.row, APPROVED, ByHuman)) else s
    case Withdraw => if s.row.state == DRAFT || s.row.state == APPROVED then s.(row := Moved(s.row, FAILED, ByHuman)) else s
    case Sweep => if s.row.state == SENDING then s.(row := Moved(s.row, SEND_UNKNOWN, BySweep)) else s
    case Reconcile(sent) =>
      if s.row.state == SEND_UNKNOWN then s.(row := Moved(s.row, if sent then SENT else FAILED, ByEvidence(sent))) else s
    case Land(w) => if w in s.inFlight then Apply(s.(inFlight := s.inFlight - {w}), w) else s
    case _ => s
  }

  function Step(s: System, e: Event, checksOwner: bool): System {
    match e
    case Begin(a) => BeginStep(s, a)
    case Approve => OtherStep(s, e)
    case Withdraw => OtherStep(s, e)
    case Sweep => OtherStep(s, e)
    case Reconcile(_) => OtherStep(s, e)
    case Land(_) => OtherStep(s, e)
    case _ => if e.who in s.deliveries then DeliveryStep(s, e, e.who, s.deliveries[e.who], checksOwner) else s
  }

  function Run(s: System, events: seq<Event>, checksOwner: bool): System {
    if events == [] then s else Step(Run(s, events[..|events| - 1], checksOwner), events[|events| - 1], checksOwner)
  }

  // ---------- What every step keeps ----------

  predicate Unclaimed(r: Row) { r.state == DRAFT || r.state == APPROVED }

  /** A version read at APPROVED is past, or the row has not moved since. */
  predicate StillApproved(r: Row, version: nat) { version < r.version || (version == r.version && r.state == APPROVED) }

  predicate StillSending(r: Row, version: nat) { version < r.version || (version == r.version && r.state == SENDING) }

  predicate NoCallBy(s: System, a: Attempt) { forall c :: c in s.calls ==> c.who != a }

  predicate PhaseOk(s: System, a: Attempt, p: Phase) {
    match p
    case Ready(v, _) => StillApproved(s.row, v) && NoCallBy(s, a)
    case Unsure(v, _) => StillApproved(s.row, v) && NoCallBy(s, a)
    case Committed => NoCallBy(s, a)
    case Owned(v) => s.row.owner == Some(a) && s.calls == [] && StillSending(s.row, v)
    case Called(v, answer) => s.row.owner == Some(a) && s.calls == [SesCall(a, answer)] && StillSending(s.row, v)
    case Done => true
  }

  predicate Finished(s: System, a: Attempt) { a in s.deliveries && s.deliveries[a].Done? }

  predicate WriteOk(s: System, w: Write) {
    match w
    case Claim(a, v) => StillApproved(s.row, v) && a in s.deliveries
    case FailUnclaimed(a, v) => StillApproved(s.row, v)
    case FailClaimed(a, v) => s.row.owner == Some(a) && s.calls == [] && Finished(s, a) && StillSending(s.row, v)
    case Settle(a, v, answer) =>
      s.row.owner == Some(a) && s.calls == [SesCall(a, answer)] && Finished(s, a) && StillSending(s.row, v)
  }

  predicate CauseOk(s: System) {
    match s.row.cause
    case ByHuman => s.row.owner == None && (s.row.state == DRAFT || s.row.state == APPROVED || s.row.state == FAILED)
    case BySender(FailUnclaimed(_, _)) => s.row.owner == None && s.row.state == FAILED
    case BySender(FailClaimed(a, _)) => s.row.owner == Some(a) && s.calls == [] && Finished(s, a) && s.row.state == FAILED
    case BySender(Settle(a, _, answer)) =>
      s.row.owner == Some(a) && s.calls == [SesCall(a, answer)] && Finished(s, a) && s.row.state == SettledState(answer)
    case BySender(Claim(a, _)) => s.row.owner == Some(a) && s.row.state == SENDING
    case BySweep => s.row.owner.Some? && s.row.state == SEND_UNKNOWN
    case ByEvidence(sent) => s.row.owner.Some? && s.row.state == if sent then SENT else FAILED
  }

  /** At most one call, made by the claim owner. */
  predicate CallsOk(s: System) {
    s.calls == [] || (|s.calls| == 1 && s.row.owner == Some(s.calls[0].who) && s.calls[0].who in s.deliveries)
  }

  ghost predicate Safe(s: System) {
    && CallsOk(s)
    && CauseOk(s)
    && (s.proof <==> s.row.owner.Some?)
    && (Unclaimed(s.row) ==> s.row.owner == None)
    && (s.row.owner == None ==> Unclaimed(s.row) || s.row.state == FAILED)
    && (s.row.owner.Some? ==> s.row.owner.value in s.deliveries)
    && (forall a :: a in s.deliveries ==> PhaseOk(s, a, s.deliveries[a]))
    && (forall w :: w in s.inFlight ==> WriteOk(s, w))
  }

  // ---------- Every step is safe ----------

  lemma ApplySafe(s: System, w: Write)
    requires Safe(s) && WriteOk(s, w)
    ensures Safe(Apply(s, w)) && Apply(s, w).deliveries == s.deliveries && Apply(s, w).calls == s.calls
  {
  }

  lemma IssueSafe(s: System, w: Write, fate: Fate)
    requires Safe(s) && WriteOk(s, w)
    ensures Safe(Issue(s, w, fate)) && Issue(s, w, fate).deliveries == s.deliveries && Issue(s, w, fate).calls == s.calls
  {
    ApplySafe(s, w);
  }

  /** A delivery may move to any phase that fits the rest, but a finished one stays finished. */
  lemma AtSafe(s: System, a: Attempt, p: Phase)
    requires Safe(s) && PhaseOk(s, a, p) && (Finished(s, a) ==> p.Done?)
    ensures Safe(At(s, a, p))
  {
  }

  /** The last act of a delivery: issue one write and be done. */
  lemma LastWriteSafe(s: System, a: Attempt, w: Write, fate: Fate)
    requires Safe(s) && WriteOk(At(s, a, Done), w)
    ensures Safe(At(Issue(s, w, fate), a, Done))
  {
    AtSafe(s, a, Done);
    IssueSafe(At(s, a, Done), w, fate);
    assert Issue(At(s, a, Done), w, fate) == At(Issue(s, w, fate), a, Done);
  }

  lemma ClaimSafe(s: System, a: Attempt, p: Phase, fate: Fate)
    requires Safe(s) && a in s.deliveries && s.deliveries[a] == p && p.Ready?
    ensures Safe(DeliveryStep(s, TryClaim(a, fate), a, p, true))
  {
    var w := Claim(a, p.version);
    IssueSafe(s, w, fate);
    var t := Issue(s, w, fate);
    if fate.Heard? {
      AtSafe(t, a, if Applies(s, w) then Committed else Done);
    } else {
      AtSafe(t, a, Unsure(p.version, p.retried));
    }
  }

  lemma CallSafe(s: System, a: Attempt, p: Phase, answer: Answer)
    requires Safe(s) && a in s.deliveries && s.deliveries[a] == p && p.Owned?
    ensures Safe(DeliveryStep(s, CallSes(a, answer), a, p, true))
  {
  }

  lemma DoneSafe(s: System, a: Attempt)
    requires Safe(s)
    ensures Safe(At(s, a, Done))
  {
    AtSafe(s, a, Done);
  }

  lemma MayFailEarly(s: System, a: Attempt, p: Phase)
    requires Safe(s) && a in s.deliveries && s.deliveries[a] == p && p.Ready?
    ensures WriteOk(At(s, a, Done), FailUnclaimed(a, p.version))
  {
    assert PhaseOk(s, a, s.deliveries[a]);
  }

  lemma MayFailLate(s: System, a: Attempt, p: Phase)
    requires Safe(s) && a in s.deliveries && s.deliveries[a] == p && p.Owned?
    ensures WriteOk(At(s, a, Done), FailClaimed(a, p.version))
  {
    assert PhaseOk(s, a, s.deliveries[a]);
  }

  lemma MayRecord(s: System, a: Attempt, p: Phase)
    requires Safe(s) && a in s.deliveries && s.deliveries[a] == p && p.Called?
    ensures WriteOk(At(s, a, Done), Settle(a, p.version, p.answer))
  {
    assert PhaseOk(s, a, s.deliveries[a]);
  }

  lemma ResolveSafe(s: System, e: Event, a: Attempt, p: Phase)
    requires Safe(s) && a in s.deliveries && s.deliveries[a] == p && p.Unsure? && e.Resolve?
    ensures Safe(DeliveryStep(s, e, a, p, true))
  {
    assert PhaseOk(s, a, s.deliveries[a]);
    AtSafe(s, a, if !e.readable then Done else if s.proof then Committed else if p.retried then Done else Ready(p.version, true));
  }

  lemma OwnerUncalled(s: System, a: Attempt)
    requires CallsOk(s) && NoCallBy(s, a)
    ensures s.row.owner == Some(a) ==> s.calls == []
  {
    assert s.calls != [] ==> s.calls[0] in s.calls;
  }

  /** Proof of ownership: a delivery that passes holds the claim, and no call has been made. */
  lemma VerifySafe(s: System, e: Event, a: Attempt, p: Phase)
    requires Safe(s) && a in s.deliveries && s.deliveries[a] == p && p.Committed? && e.Verify?
    ensures Safe(DeliveryStep(s, e, a, p, true))
  {
    assert PhaseOk(s, a, s.deliveries[a]);
    OwnerUncalled(s, a);
    if s.row.state == SENDING && s.row.owner == Some(a) {
      AtSafe(s, a, Owned(s.row.version));
    } else {
      AtSafe(s, a, Done);
    }
  }

  lemma DeliverySafe(s: System, e: Event, a: Attempt, p: Phase)
    requires Safe(s) && a in s.deliveries && s.deliveries[a] == p
    ensures Safe(DeliveryStep(s, e, a, p, true))
  {
    hide Safe, WriteOk, PhaseOk, CauseOk;
    match e
    case FailEarly(_, fate) =>
      if p.Ready? && !p.retried { MayFailEarly(s, a, p); LastWriteSafe(s, a, FailUnclaimed(a, p.version), fate); }
    case TryClaim(who, fate) =>
      if p.Ready? {
        ClaimSafe(s, a, p, fate);
        assert DeliveryStep(s, e, a, p, true) == DeliveryStep(s, TryClaim(a, fate), a, p, true);
      }
    case Resolve(_, _) => if p.Unsure? { ResolveSafe(s, e, a, p); }
    case Verify(_) => if p.Committed? { VerifySafe(s, e, a, p); }
    case FailLate(_, fate) =>
      if p.Owned? { MayFailLate(s, a, p); LastWriteSafe(s, a, FailClaimed(a, p.version), fate); }
    case CallSes(_, answer) =>
      if p.Owned? {
        CallSafe(s, a, p, answer);
        assert DeliveryStep(s, e, a, p, true) == DeliveryStep(s, CallSes(a, answer), a, p, true);
      }
    case Record(_, fate) =>
      if p.Called? { MayRecord(s, a, p); LastWriteSafe(s, a, Settle(a, p.version, p.answer), fate); }
    case Crash(_) => DoneSafe(s, a);
    case _ =>
  }

  lemma OtherSafe(s: System, e: Event)
    requires Safe(s)
    ensures Safe(OtherStep(s, e))
  {
    if e.Land? && e.write in s.inFlight {
      var t := s.(inFlight := s.inFlight - {e.write});
      assert Safe(t);
      ApplySafe(t, e.write);
    }
  }

  lemma BeginSafe(s: System, a: Attempt)
    requires Safe(s)
    ensures Safe(BeginStep(s, a))
  {
    if a !in s.deliveries {
      assert NoCallBy(s, a);
      AtSafe(s, a, if s.row.state == APPROVED then Ready(s.row.version, false) else Done);
    }
  }

  lemma StepSafe(s: System, e: Event)
    requires Safe(s)
    ensures Safe(Step(s, e, true))
  {
    hide Safe, DeliveryStep, OtherStep, BeginStep;
    match e
    case Begin(a) => BeginSafe(s, a);
    case Approve => OtherSafe(s, e);
    case Withdraw => OtherSafe(s, e);
    case Sweep => OtherSafe(s, e);
    case Reconcile(_) => OtherSafe(s, e);
    case Land(_) => OtherSafe(s, e);
    case _ => if e.who in s.deliveries { DeliverySafe(s, e, e.who, s.deliveries[e.who]); }
  }

  lemma InitialSafe()
    ensures Safe(Initial())
  {
  }

  lemma {:induction false} RunSafe(events: seq<Event>)
    ensures Safe(Run(Initial(), events, true))
  {
    hide Step, Safe;
    if events == [] {
      InitialSafe();
    } else {
      RunSafe(events[..|events| - 1]);
      StepSafe(Run(Initial(), events[..|events| - 1], true), events[|events| - 1]);
    }
  }

  // ---------- The protocol's promises ----------

  /**
   In every run, at most one deliberate SES call is made for the execution, and it is made by the
   delivery whose claim the row carries.
   */
  lemma AtMostOneCall(events: seq<Event>)
    ensures var s := Run(Initial(), events, true);
            |s.calls| <= 1 && (s.calls != [] ==> s.row.owner == Some(s.calls[0].who))
  {
    RunSafe(events);
  }

  /**
   What the row records is what happened: by what last moved it, its state and the calls made. A
   failure recorded before the call proves there was none, then or later; an outcome recorded after
   it is the one SES gave.
   */
  lemma OutcomesAreHonest(events: seq<Event>)
    ensures var s := Run(Initial(), events, true);
            match s.row.cause
            case ByHuman => s.calls == [] && (s.row.state == DRAFT || s.row.state == APPROVED || s.row.state == FAILED)
            case BySender(Claim(a, _)) => s.row.state == SENDING && s.row.owner == Some(a)
            case BySender(FailUnclaimed(_, _)) => s.row.state == FAILED && s.calls == []
            case BySender(FailClaimed(_, _)) => s.row.state == FAILED && s.calls == []
            case BySender(Settle(a, _, Accepted)) => s.row.state == SENT && s.calls == [SesCall(a, Accepted)]
            case BySender(Settle(a, _, DefiniteFailure)) => s.row.state == FAILED && s.calls == [SesCall(a, DefiniteFailure)]
            case BySender(Settle(a, _, Unknown)) => s.row.state == SEND_UNKNOWN && s.calls == [SesCall(a, Unknown)]
            case BySweep => s.row.state == SEND_UNKNOWN
            case ByEvidence(sent) => s.row.state == if sent then SENT else FAILED
  {
    RunSafe(events);
  }

  /**
   Read from the row alone: SENT without later evidence means SES accepted this owner's one call;
   FAILED without it means there was no call, or SES refused it; a row nobody has claimed had none.
   */
  lemma RowTellsCalls(events: seq<Event>)
    ensures var s := Run(Initial(), events, true);
            && (s.row.state == SENT && !s.row.cause.ByEvidence? ==>
                  s.row.owner.Some? && s.calls == [SesCall(s.row.owner.value, Accepted)])
            && (s.row.state == FAILED && !s.row.cause.ByEvidence? ==>
                  s.calls == [] || (s.row.owner.Some? && s.calls == [SesCall(s.row.owner.value, DefiniteFailure)]))
            && (s.row.state == DRAFT || s.row.state == APPROVED ==> s.row.owner == None && s.calls == [])
  {
    RunSafe(events);
  }

  predicate Edge(from: ExecutionState, to: ExecutionState) {
    || (from == DRAFT && (to == APPROVED || to == FAILED))
    || (from == APPROVED && (to == SENDING || to == FAILED))
    || (from == SENDING && (to == SENT || to == FAILED || to == SEND_UNKNOWN))
    || (from == SEND_UNKNOWN && (to == SENT || to == FAILED))
  }

  predicate Moves(s: System, t: System) {
    && (t.row == s.row || (Edge(s.row.state, t.row.state) && t.row.version == s.row.version + 1))
    && (s.row.owner.Some? ==> t.row.owner == s.row.owner)
  }

  lemma ApplyMoves(s: System, w: Write)
    requires Safe(s) && WriteOk(s, w)
    ensures Moves(s, Apply(s, w))
  {
  }

  lemma DeliveryMoves(s: System, e: Event, a: Attempt, p: Phase)
    requires Safe(s) && a in s.deliveries && s.deliveries[a] == p
    ensures Moves(s, DeliveryStep(s, e, a, p, true))
  {
    assert PhaseOk(s, a, p);
    match e
    case FailEarly(_, _) =>
      if p.Ready? { MayFailEarly(s, a, p); DoneSafe(s, a); ApplyMoves(At(s, a, Done), FailUnclaimed(a, p.version)); }
    case TryClaim(_, _) => if p.Ready? { ApplyMoves(s, Claim(a, p.version)); }
    case FailLate(_, _) =>
      if p.Owned? { MayFailLate(s, a, p); DoneSafe(s, a); ApplyMoves(At(s, a, Done), FailClaimed(a, p.version)); }
    case Record(_, _) =>
      if p.Called? { MayRecord(s, a, p); DoneSafe(s, a); ApplyMoves(At(s, a, Done), Settle(a, p.version, p.answer)); }
    case _ =>
  }

  lemma LandMoves(s: System, w: Write)
    requires Safe(s) && w in s.inFlight
    ensures Moves(s, Apply(s.(inFlight := s.inFlight - {w}), w))
  {
    ApplyMoves(s, w);
  }

  lemma MovesSafely(s: System, e: Event)
    requires Safe(s)
    ensures Moves(s, Step(s, e, true))
  {
    hide Safe, DeliveryStep;
    match e
    case Land(w) => if w in s.inFlight { LandMoves(s, w); }
    case Begin(_) =>
    case Approve =>
    case Withdraw =>
    case Sweep =>
    case Reconcile(_) =>
    case _ => if e.who in s.deliveries { DeliveryMoves(s, e, e.who, s.deliveries[e.who]); }
  }

  /** The row moves only along the declared edges, one version at a time, and never changes its owner once claimed. */
  lemma RowMovesAlongEdges(events: seq<Event>, e: Event)
    ensures var s := Run(Initial(), events, true);
            var t := Step(s, e, true);
            && (t.row == s.row || (Edge(s.row.state, t.row.state) && t.row.version == s.row.version + 1))
            && (s.row.owner.Some? ==> t.row.owner == s.row.owner)
  {
    RunSafe(events);
    MovesSafely(Run(Initial(), events, true), e);
  }

  // ---------- What a delivery gets done ----------

  lemma {:induction false} RunSplit(s: System, a: seq<Event>, b: seq<Event>, checksOwner: bool)
    ensures Run(s, a + b, checksOwner) == Run(Run(s, a, checksOwner), b, checksOwner)
  {
    hide Step;
    if b == [] {
      assert a + b == a;
    } else {
      assert (a + b)[..|a + b| - 1] == a + b[..|b| - 1];
      RunSplit(s, a, b[..|b| - 1], checksOwner);
    }
  }

  lemma RunCons(s: System, e: Event, rest: seq<Event>, checksOwner: bool)
    ensures Run(s, [e] + rest, checksOwner) == Run(Step(s, e, checksOwner), rest, checksOwner)
  {
    RunSplit(s, [e], rest, checksOwner);
    assert [e][..0] == [];
  }

  /** The ways a claim can go through: answered, answer lost, landing late, or lost and tried again. */
  datatype Way = Straight | AnswerLost | LandsLate | TriedAgain

  function Claiming(a: Attempt, version: nat, way: Way): seq<Event> {
    match way
    case Straight => [TryClaim(a, Heard)]
    case AnswerLost => [TryClaim(a, LostApplied), Resolve(a, true)]
    case LandsLate => [TryClaim(a, LostInFlight), Land(Claim(a, version)), Resolve(a, true)]
    case TriedAgain => [TryClaim(a, LostInFlight), Resolve(a, true), TryClaim(a, Heard)]
  }

  function Sending(a: Attempt, answer: Answer): seq<Event> { [Verify(a), CallSes(a, answer), Record(a, Heard)] }

  lemma OneStep(s: System, e: Event)
    ensures Run(s, [e], true) == Step(s, e, true)
  {
    assert [e][..0] == [];
  }

  lemma TwoSteps(s: System, e: Event, f: Event)
    ensures Run(s, [e, f], true) == Step(Step(s, e, true), f, true)
  {
    hide Step;
    assert [e, f] == [e] + [f];
    RunCons(s, e, [f], true);
    OneStep(Step(s, e, true), f);
  }

  lemma ThreeSteps(s: System, e: Event, f: Event, g: Event)
    ensures Run(s, [e, f, g], true) == Step(Step(Step(s, e, true), f, true), g, true)
  {
    hide Step;
    assert [e, f, g] == [e] + [f, g];
    RunCons(s, e, [f, g], true);
    TwoSteps(Step(s, e, true), f, g);
  }

  predicate Holding(s: System, a: Attempt) {
    s.row.state == SENDING && s.row.owner == Some(a) && a in s.deliveries && s.deliveries[a] == Committed
  }

  lemma ClaimHeard(s: System, a: Attempt)
    requires s.row.state == APPROVED && !s.proof && a in s.deliveries
    requires s.deliveries[a].Ready? && s.deliveries[a].version == s.row.version
    ensures var t := Step(s, TryClaim(a, Heard), true);
            Holding(t, a) && t.row.version == s.row.version + 1 && t.calls == s.calls
  {
  }

  lemma ClaimLost(s: System, a: Attempt)
    requires s.row.state == APPROVED && !s.proof && a in s.deliveries && s.deliveries[a] == Ready(s.row.version, false)
    ensures var v, t := s.row.version, Step(s, TryClaim(a, LostInFlight), true);
            var late, again := Step(Step(t, Land(Claim(a, v)), true), Resolve(a, true), true), Step(t, Resolve(a, true), true);
            && Holding(late, a) && late.row.version == v + 1 && late.calls == s.calls
            && again.row == s.row && !again.proof && again.calls == s.calls && again.deliveries == s.deliveries[a := Ready(v, true)]
  {
  }

  lemma ClaimGoesThrough(s: System, a: Attempt, way: Way)
    requires s.row.state == APPROVED && !s.proof && a in s.deliveries && s.deliveries[a] == Ready(s.row.version, false)
    ensures var t := Run(s, Claiming(a, s.row.version, way), true);
            Holding(t, a) && t.row.version == s.row.version + 1 && t.calls == s.calls
  {
    var v := s.row.version;
    match way {
      case Straight =>
        OneStep(s, TryClaim(a, Heard));
        ClaimHeard(s, a);
      case AnswerLost => TwoSteps(s, TryClaim(a, LostApplied), Resolve(a, true));
      case LandsLate =>
        hide Step;
        ClaimLost(s, a);
        ThreeSteps(s, TryClaim(a, LostInFlight), Land(Claim(a, v)), Resolve(a, true));
      case TriedAgain =>
        hide Step;
        ClaimLost(s, a);
        ClaimHeard(Step(Step(s, TryClaim(a, LostInFlight), true), Resolve(a, true), true), a);
        ThreeSteps(s, TryClaim(a, LostInFlight), Resolve(a, true), TryClaim(a, Heard));
    }
  }

  lemma HolderSends(s: System, a: Attempt, answer: Answer)
    requires Holding(s, a)
    ensures var t := Run(s, Sending(a, answer), true);
            && t.calls == s.calls + [SesCall(a, answer)] && t.row.version == s.row.version + 1 && t.row.owner == Some(a)
            && t.row.state == match answer case Accepted => SENT case DefiniteFailure => FAILED case Unknown => SEND_UNKNOWN
  {
    ThreeSteps(s, Verify(a), CallSes(a, answer), Record(a, Heard));
  }

  lemma ApprovedIsFree(s: System)
    requires Safe(s) && s.row.state == APPROVED
    ensures s.row.owner == None && !s.proof && s.calls == []
  {
  }

  /**
   An approved execution can always be sent: whatever happened before, a delivery that begins on an
   APPROVED row claims it in any of the four ways, makes the one call and records what SES said.
   */
  lemma ApprovedCanBeSent(events: seq<Event>, a: Attempt, way: Way, answer: Answer)
    requires var s := Run(Initial(), events, true); s.row.state == APPROVED && a !in s.deliveries
    ensures var s := Run(Initial(), events, true);
            var t := Run(s, [Begin(a)] + (Claiming(a, s.row.version, way) + Sending(a, answer)), true);
            && t.calls == [SesCall(a, answer)] && t.row.owner == Some(a) && t.row.version == s.row.version + 2
            && t.row.state == match answer case Accepted => SENT case DefiniteFailure => FAILED case Unknown => SEND_UNKNOWN
  {
    hide DeliveryStep, OtherStep, Safe;
    var s := Run(Initial(), events, true);
    RunSafe(events);
    ApprovedIsFree(s);
    var t := Step(s, Begin(a), true);
    RunCons(s, Begin(a), Claiming(a, s.row.version, way) + Sending(a, answer), true);
    RunSplit(t, Claiming(a, s.row.version, way), Sending(a, answer), true);
    ClaimGoesThrough(t, a, way);
    HolderSends(Run(t, Claiming(a, s.row.version, way), true), a, answer);
  }

  /** A delivery proceeds exactly when it finds the row APPROVED, and otherwise is over without a write. */
  lemma BeginsExactly(events: seq<Event>, a: Attempt)
    requires a !in Run(Initial(), events, true).deliveries
    ensures var s := Run(Initial(), events, true);
            var t := Run(Initial(), events + [Begin(a)], true);
            && t.row == s.row && t.calls == s.calls && t.inFlight == s.inFlight && a in t.deliveries
            && t.deliveries[a] == if s.row.state == APPROVED then Ready(s.row.version, false) else Done
  {
    hide DeliveryStep, OtherStep;
    RunSplit(Initial(), events, [Begin(a)], true);
    OneStep(Run(Initial(), events, true), Begin(a));
  }

  /** A claim that is answered commits exactly when it applied, and is otherwise over with the row as it was. */
  lemma ClaimsExactly(events: seq<Event>, a: Attempt)
    requires var s := Run(Initial(), events, true); a in s.deliveries && s.deliveries[a].Ready?
    ensures var s := Run(Initial(), events, true);
            var t, applies := Run(Initial(), events + [TryClaim(a, Heard)], true), s.row.version == s.deliveries[a].version;
            && a in t.deliveries && t.deliveries[a] == (if applies then Committed else Done) && t.calls == s.calls
            && (applies ==> s.row.state == APPROVED && t.row.state == SENDING && t.row.owner == Some(a))
            && (!applies ==> t.row == s.row)
  {
    var s := Run(Initial(), events, true);
    RunSafe(events);
    assert PhaseOk(s, a, s.deliveries[a]);
    if s.row.version == s.deliveries[a].version { ApprovedIsFree(s); }
    RunSplit(Initial(), events, [TryClaim(a, Heard)], true);
    OneStep(s, TryClaim(a, Heard));
  }

  /** A lost answer is resolved by the commit proof when it can be read, and tried again at most once. */
  lemma ResolvesExactly(events: seq<Event>, a: Attempt, readable: bool)
    requires var s := Run(Initial(), events, true); a in s.deliveries && s.deliveries[a].Unsure?
    ensures var s := Run(Initial(), events, true);
            var t, p := Run(Initial(), events + [Resolve(a, readable)], true), s.deliveries[a];
            && t.row == s.row && t.calls == s.calls && a in t.deliveries
            && t.deliveries[a] ==
                 if readable && s.row.owner.Some? then Committed
                 else if readable && !p.retried then Ready(p.version, true)
                 else Done
  {
    RunSafe(events);
    RunSplit(Initial(), events, [Resolve(a, readable)], true);
    OneStep(Run(Initial(), events, true), Resolve(a, readable));
  }

  /** The ownership check passes exactly for the owner of a row still SENDING, and then nobody has called. */
  lemma OwnershipExactly(events: seq<Event>, a: Attempt)
    requires var s := Run(Initial(), events, true); a in s.deliveries && s.deliveries[a] == Committed
    ensures var s := Run(Initial(), events, true);
            var t := Run(Initial(), events + [Verify(a)], true);
            && t.row == s.row && t.calls == s.calls && a in t.deliveries
            && (t.deliveries[a] == Owned(s.row.version) <==> s.row.state == SENDING && s.row.owner == Some(a))
            && (t.deliveries[a].Owned? || t.deliveries[a].Done?) && (t.deliveries[a].Owned? ==> s.calls == [])
  {
    var s := Run(Initial(), events, true);
    RunSafe(events);
    OwnerUncalled(s, a);
    RunSplit(Initial(), events, [Verify(a)], true);
    OneStep(s, Verify(a));
  }

  /** A delivery that stops before the call fails the row without one. */
  lemma StopsBeforeCall(s: System, a: Attempt)
    requires Holding(s, a)
    ensures var t := Run(s, [Verify(a), FailLate(a, Heard)], true); t.row.state == FAILED && t.calls == s.calls
  {
    TwoSteps(s, Verify(a), FailLate(a, Heard));
  }

  lemma SweptThenReconciled(s: System, sent: bool)
    requires s.row.state == SENDING
    ensures var t := Run(s, [Sweep], true); t.row.state == SEND_UNKNOWN && t.calls == s.calls
    ensures var t := Run(s, [Sweep, Reconcile(sent)], true); t.row.state == (if sent then SENT else FAILED) && t.calls == s.calls
  {
    OneStep(s, Sweep);
    TwoSteps(s, Sweep, Reconcile(sent));
  }

  /**
   One that dies after the call leaves the row to the sweep, which says only that nobody knows, and
   to the evidence found later.
   */
  lemma LostAfterCall(s: System, a: Attempt, answer: Answer, sent: bool)
    requires Holding(s, a)
    ensures var t := Run(s, [Verify(a), CallSes(a, answer), Crash(a)], true);
            && t.row == s.row && t.calls == s.calls + [SesCall(a, answer)]
            && Run(t, [Sweep], true).row.state == SEND_UNKNOWN
            && Run(t, [Sweep, Reconcile(sent)], true).row.state == (if sent then SENT else FAILED)
            && Run(t, [Sweep, Reconcile(sent)], true).calls == t.calls
  {
    ThreeSteps(s, Verify(a), CallSes(a, answer), Crash(a));
    SweptThenReconciled(Run(s, [Verify(a), CallSes(a, answer), Crash(a)], true), sent);
  }

  /** A delivery that stops before it has claimed fails the row, and no later write of its own applies. */
  lemma StopsBeforeClaim(s: System, a: Attempt)
    requires s.row.state == APPROVED && a in s.deliveries && s.deliveries[a] == Ready(s.row.version, false)
    ensures var t := Run(s, [FailEarly(a, Heard)], true);
            && t.row.state == FAILED && t.row.version == s.row.version + 1 && t.calls == s.calls
            && t.deliveries == s.deliveries[a := Done]
  {
    OneStep(s, FailEarly(a, Heard));
  }

  const BEGUN: seq<Event> := [Approve, Begin(1)]

  function CalledEvents(answer: Answer): seq<Event> { BEGUN + [TryClaim(1, Heard)] + [Verify(1), CallSes(1, answer)] }

  lemma BegunState()
    ensures Run(Initial(), [Approve], true).row.state == APPROVED
    ensures Run(Initial(), BEGUN, true) == System(Row(APPROVED, 2, None, ByHuman), false, {}, map[1 := Ready(2, false)], [])
  {
    OneStep(Initial(), Approve);
    TwoSteps(Initial(), Approve, Begin(1));
  }

  lemma ClaimedState()
    ensures Run(Initial(), BEGUN + [TryClaim(1, Heard)], true) ==
            System(Row(SENDING, 3, Some(1), BySender(Claim(1, 2))), true, {}, map[1 := Committed], [])
  {
    BegunState();
    RunSplit(Initial(), BEGUN, [TryClaim(1, Heard)], true);
    OneStep(Run(Initial(), BEGUN, true), TryClaim(1, Heard));
  }

  lemma CalledState(answer: Answer)
    ensures Run(Initial(), CalledEvents(answer), true) ==
            System(Row(SENDING, 3, Some(1), BySender(Claim(1, 2))), true, {}, map[1 := Called(3, answer)], [SesCall(1, answer)])
  {
    ClaimedState();
    RunSplit(Initial(), BEGUN + [TryClaim(1, Heard)], [Verify(1), CallSes(1, answer)], true);
    TwoSteps(Run(Initial(), BEGUN + [TryClaim(1, Heard)], true), Verify(1), CallSes(1, answer));
  }

  lemma RecordedState(answer: Answer, sent: bool)
    ensures var s := Run(Initial(), CalledEvents(answer), true);
            && s.row.state == SENDING
            && Step(s, Record(1, Heard), true).row.state ==
                 match answer case Accepted => SENT case DefiniteFailure => FAILED case Unknown => SEND_UNKNOWN
    ensures var s := Run(Initial(), CalledEvents(Unknown) + [Record(1, Heard)], true);
            s.row.state == SEND_UNKNOWN && Step(s, Reconcile(sent), true).row.state == if sent then SENT else FAILED
  {
    CalledState(answer);
    CalledState(Unknown);
    RunSplit(Initial(), CalledEvents(Unknown), [Record(1, Heard)], true);
    OneStep(Run(Initial(), CalledEvents(Unknown), true), Record(1, Heard));
  }

  /** No declared edge is idle: each of them is taken by some run. */
  lemma EveryEdgeIsTaken(from: ExecutionState, to: ExecutionState) returns (events: seq<Event>, e: Event)
    requires Edge(from, to)
    ensures var s := Run(Initial(), events, true); s.row.state == from && Step(s, e, true).row.state == to
  {
    BegunState();
    if from == DRAFT {
      events, e := [], if to == APPROVED then Approve else Withdraw;
    } else if from == APPROVED {
      events, e := BEGUN, if to == SENDING then TryClaim(1, Heard) else Withdraw;
    } else {
      hide Run, Step;
      var answer := if to == SENT then Accepted else if to == FAILED then DefiniteFailure else Unknown;
      RecordedState(answer, to == SENT);
      if from == SENDING {
        events, e := CalledEvents(answer), Record(1, Heard);
      } else {
        events, e := CalledEvents(Unknown) + [Record(1, Heard)], Reconcile(to == SENT);
      }
    }
  }

  // ---------- What the ownership check is for ----------

  /** Two deliveries of one approved execution, and a claim by the first. */
  function FirstClaimed(): System {
    System(Row(SENDING, 3, Some(1), BySender(Claim(1, 2))), true, {}, map[1 := Committed, 2 := Ready(2, false)], [])
  }

  const CLAIMING: seq<Event> := [Approve, Begin(1), Begin(2), TryClaim(1, Heard)]
  const SENDING_TWICE: seq<Event> :=
    [TryClaim(2, LostApplied), Resolve(2, true), Verify(1), Verify(2), CallSes(1, Accepted), CallSes(2, Accepted)]
  const TWO_CALLS: seq<Event> := CLAIMING + SENDING_TWICE

  lemma FirstClaims()
    ensures Run(Initial(), CLAIMING, false) == FirstClaimed()
  {
    var s0 := Initial();
    var s1 := Step(s0, Approve, false);
    var s2 := Step(s1, Begin(1), false);
    var s3 := Step(s2, Begin(2), false);
    var s4 := Step(s3, TryClaim(1, Heard), false);
    assert s3.deliveries == map[1 := Ready(2, false), 2 := Ready(2, false)];
    assert s4 == FirstClaimed();
    RunCons(s0, Approve, [Begin(1), Begin(2), TryClaim(1, Heard)], false);
    RunCons(s1, Begin(1), [Begin(2), TryClaim(1, Heard)], false);
    RunCons(s2, Begin(2), [TryClaim(1, Heard)], false);
    RunCons(s3, TryClaim(1, Heard), [], false);
    assert CLAIMING == [Approve] + [Begin(1), Begin(2), TryClaim(1, Heard)];
    assert [Begin(1), Begin(2), TryClaim(1, Heard)] == [Begin(1)] + [Begin(2), TryClaim(1, Heard)];
    assert [Begin(2), TryClaim(1, Heard)] == [Begin(2)] + [TryClaim(1, Heard)];
    assert [TryClaim(1, Heard)] == [TryClaim(1, Heard)] + [];
  }

  lemma SecondCalls()
    ensures Run(FirstClaimed(), SENDING_TWICE, false).calls == [SesCall(1, Accepted), SesCall(2, Accepted)]
  {
    var s0 := FirstClaimed();
    var s1 := Step(s0, TryClaim(2, LostApplied), false);
    var s2 := Step(s1, Resolve(2, true), false);
    var s3 := Step(s2, Verify(1), false);
    var s4 := Step(s3, Verify(2), false);
    var s5 := Step(s4, CallSes(1, Accepted), false);
    var s6 := Step(s5, CallSes(2, Accepted), false);
    assert s2.deliveries[1] == Committed && s2.deliveries[2] == Committed;
    assert s4.deliveries[1] == Owned(3) && s4.deliveries[2] == Owned(3);
    assert s6.calls == [SesCall(1, Accepted), SesCall(2, Accepted)];
    var rest1 := [CallSes(2, Accepted)];
    var rest2 := [CallSes(1, Accepted)] + rest1;
    var rest3 := [Verify(2)] + rest2;
    var rest4 := [Verify(1)] + rest3;
    var rest5 := [Resolve(2, true)] + rest4;
    assert SENDING_TWICE == [TryClaim(2, LostApplied)] + rest5 && rest1 == rest1 + [];
    RunCons(s0, TryClaim(2, LostApplied), rest5, false);
    RunCons(s1, Resolve(2, true), rest4, false);
    RunCons(s2, Verify(1), rest3, false);
    RunCons(s3, Verify(2), rest2, false);
    RunCons(s4, CallSes(1, Accepted), rest1, false);
    RunCons(s5, CallSes(2, Accepted), [], false);
  }

  /**
   Without the check a delivery whose own claim was refused, and whose answer was lost, takes the
   other delivery's commit proof for its own, and a second call is made for one approved message.
   */
  lemma WithoutOwnershipTwoCalls()
    ensures Run(Initial(), TWO_CALLS, false).calls == [SesCall(1, Accepted), SesCall(2, Accepted)]
    ensures |Run(Initial(), TWO_CALLS, true).calls| <= 1
  {
    AtMostOneCall(TWO_CALLS);
    RunSplit(Initial(), CLAIMING, SENDING_TWICE, false);
    assert TWO_CALLS == CLAIMING + SENDING_TWICE;
    FirstClaims();
    SecondCalls();
  }
}
