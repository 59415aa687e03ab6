/**
 The worker, compiler, sender and watcher functions: parse, compose once, take one authoritative
 clock reading, and make at most one use-case call under it, in a process that stays warm.
 */
module Handlers {
  import opened Text
  import opened Wire
  import opened Identifiers
  import opened Jobs
  import opened Dispatch

  datatype Runner = MonitorRunner | InvestigatorRunner | ProposerRunner | ExtractorRunner | SenderRunner

  /** The worker's runner map. */
  const RUNNERS: map<WorkerJobKind, Runner> :=
    map[MONITOR := MonitorRunner, INVESTIGATE := InvestigatorRunner, PROPOSE_ACTION := ProposerRunner,
        EXTRACT_COMMITMENT := ExtractorRunner, SEND_ACTION := SenderRunner]

  datatype Call =
    | RunJob(runner: Runner, job: OperationJob)
    | CompileView(request: Json) | AuthorizeSend(request: Json) | ReleaseFence(request: Json)
    | SendAction(request: Json)
    | RecordDue(request: Json)

  datatype ClockAnswer = Reading(instant: Instant) | DemoClockError | OtherClockError

  /** A use case returns, raises something its failure encoder names, or raises anything else. */
  datatype CallAnswer = Returned | Recognised | Unrecognised

  /** What the surroundings do during one invocation. */
  datatype World = World(buildable: bool, clock: ClockAnswer, answer: CallAnswer)

  datatype Effect = ReadClock(answer: ClockAnswer) | Execute(call: Call, now: Option<Instant>)

  datatype Reply = Answered | EncodedFailure | Refusal | InvocationFailed | Raised

  datatype Handler = WorkerHandler | CompilerHandler | SenderHandler | WatcherHandler

  /** The library parsers, and which payloads the other four request decoders accept. */
  datatype Contracts = Contracts(
    lib: Library, compile: Json -> bool, fence: Json -> bool, release: Json -> bool, send: Json -> bool, due: Json -> bool)

  const COMPILE_OPERATION := "CompileView"
  const ACQUIRE_OPERATION := "AcquireSendAuthorizationFence"
  const RELEASE_OPERATION := "ReleaseSendAuthorizationFence"
  const SEND_OPERATION := "SendAction"
  const WATCHER_OPERATION := "RecordCommitmentDue"

  /** What an event asks of a handler, before anything happens. */
  datatype Plan =
    | Refuse
    | Escape
    | Attempt(call: Call)
    | RefuseUnderClock

  function CompilerPlan(c: Contracts, operation: string, payload: Json): (p: Plan)
    ensures p.Attempt? || p.RefuseUnderClock?
  {
    if operation == COMPILE_OPERATION then (if c.compile(payload) then Attempt(CompileView(payload)) else RefuseUnderClock)
    else if operation == ACQUIRE_OPERATION then (if c.fence(payload) then Attempt(AuthorizeSend(payload)) else RefuseUnderClock)
    else if c.release(payload) then Attempt(ReleaseFence(payload))
    else RefuseUnderClock
  }

  function PlanOf(h: Handler, c: Contracts, event: Json): Plan {
    match h
    case WorkerHandler => (
      match ParseJob(c.lib, event)
      case Ok((kind, job)) => Attempt(RunJob(RUNNERS[kind], job))
      case Refused => Refuse
      case Fault => Escape)
    case CompilerHandler => (
      match ReadEnvelope(event, {COMPILE_OPERATION, ACQUIRE_OPERATION, RELEASE_OPERATION})
      case Ok((operation, payload)) => CompilerPlan(c, operation, payload)
      case _ => Refuse)
    case SenderHandler => (
      match ReadEnvelope(event, {SEND_OPERATION})
      case Ok((_, payload)) => if c.send(payload) then Attempt(SendAction(payload)) else Refuse
      case _ => Refuse)
    case WatcherHandler => (
      match ReadEnvelope(event, {WATCHER_OPERATION})
      case Ok((_, payload)) => if c.due(payload) then Attempt(RecordDue(payload)) else Refuse
      case _ => Refuse)
  }

  lemma WorkerPlan(c: Contracts, event: Json)
    ensures forall kind: WorkerJobKind :: kind in RUNNERS
    ensures var parsed := ParseJob(c.lib, event);
            PlanOf(WorkerHandler, c, event) ==
            if parsed.Ok? then Attempt(RunJob(RUNNERS[parsed.value.0], parsed.value.1))
            else if parsed.Fault? then Escape
            else Refuse
  {
    hide ParseJob;
    forall kind: WorkerJobKind ensures kind in RUNNERS {
      match kind {
        case MONITOR => case INVESTIGATE => case PROPOSE_ACTION => case EXTRACT_COMMITMENT => case SEND_ACTION =>
      }
    }
  }

  lemma CompilerPlans(c: Contracts, event: Json)
    ensures var envelope := ReadEnvelope(event, {COMPILE_OPERATION, ACQUIRE_OPERATION, RELEASE_OPERATION});
            PlanOf(CompilerHandler, c, event) ==
            if envelope.Ok? then CompilerPlan(c, envelope.value.0, envelope.value.1) else Refuse
  {
    hide ReadEnvelope;
  }

  lemma OperationsDiffer()
    ensures "CompileView" != "AcquireSendAuthorizationFence" && "CompileView" != "ReleaseSendAuthorizationFence"
    ensures "AcquireSendAuthorizationFence" != "ReleaseSendAuthorizationFence"
  {
    assert "CompileView"[0] == 'C' && "AcquireSendAuthorizationFence"[0] == 'A' && "ReleaseSendAuthorizationFence"[0] == 'R';
  }

  /** What the compiler's envelope comes to, one operation at a time. */
  lemma CompilerReads(c: Contracts, event: Json, operation: string, payload: Json)
    requires operation in {"CompileView", "AcquireSendAuthorizationFence", "ReleaseSendAuthorizationFence"}
    requires Declares(event, operation, payload)
    ensures PlanOf(CompilerHandler, c, event) == CompilerPlan(c, operation, payload)
  {
    hide ReadEnvelope, CompilerPlan;
    EnvelopeExact(event, {COMPILE_OPERATION, ACQUIRE_OPERATION, RELEASE_OPERATION}, operation, payload);
    CompilerPlans(c, event);
  }

  /**
   What the compiler is asked for, exactly: the three operations, each with its own request decoder
   and its own use case; a payload its decoder rejects is refused under the clock, and everything
   else is refused outright.
   */
  lemma CompilerAsksExactly(c: Contracts, event: Json, payload: Json)
    ensures var p := PlanOf(CompilerHandler, c, event);
            && (p == Attempt(CompileView(payload)) <==> Declares(event, "CompileView", payload) && c.compile(payload))
            && (p == Attempt(AuthorizeSend(payload)) <==>
                  Declares(event, "AcquireSendAuthorizationFence", payload) && c.fence(payload))
            && (p == Attempt(ReleaseFence(payload)) <==>
                  Declares(event, "ReleaseSendAuthorizationFence", payload) && c.release(payload))
            && (p.Attempt? ==> p.call.CompileView? || p.call.AuthorizeSend? || p.call.ReleaseFence?)
    ensures var p := PlanOf(CompilerHandler, c, event);
            Declares(event, "CompileView", payload) && !c.compile(payload) ==> p == RefuseUnderClock
    ensures var p := PlanOf(CompilerHandler, c, event);
            Declares(event, "AcquireSendAuthorizationFence", payload) && !c.fence(payload) ==> p == RefuseUnderClock
    ensures var p := PlanOf(CompilerHandler, c, event);
            Declares(event, "ReleaseSendAuthorizationFence", payload) && !c.release(payload) ==> p == RefuseUnderClock
    ensures var p := PlanOf(CompilerHandler, c, event);
            && p != Escape
            && (p == Refuse <==>
                  forall op, any :: op in {"CompileView", "AcquireSendAuthorizationFence", "ReleaseSendAuthorizationFence"} ==>
                    !Declares(event, op, any))
  {
    OperationsDiffer();
    CompilerPlans(c, event);
    var accepted := {COMPILE_OPERATION, ACQUIRE_OPERATION, RELEASE_OPERATION};
    var envelope := ReadEnvelope(event, accepted);
    forall op, any | op in accepted && Declares(event, op, any) ensures envelope == Ok((op, any)) {
      EnvelopeExact(event, accepted, op, any);
    }
    if envelope.Ok? { EnvelopeExact(event, accepted, envelope.value.0, envelope.value.1); }
    EnvelopeExact(event, accepted, "", payload);
    hide ReadEnvelope, Declares, PlanOf;
  }

  /** The sender and the watcher serve one operation each, and refuse a payload their decoder rejects outright. */
  lemma SenderAsksExactly(c: Contracts, event: Json, payload: Json)
    ensures var p := PlanOf(SenderHandler, c, event);
            && (p == Attempt(SendAction(payload)) <==> Declares(event, "SendAction", payload) && c.send(payload))
            && (p == Refuse || (p.Attempt? && p.call.SendAction?))
  {
    EnvelopeExact(event, {SEND_OPERATION}, SEND_OPERATION, payload);
    var envelope := ReadEnvelope(event, {SEND_OPERATION});
    if envelope.Ok? { EnvelopeExact(event, {SEND_OPERATION}, envelope.value.0, envelope.value.1); }
    hide ReadEnvelope, Declares;
  }

  lemma WatcherAsksExactly(c: Contracts, event: Json, payload: Json)
    ensures var p := PlanOf(WatcherHandler, c, event);
            && (p == Attempt(RecordDue(payload)) <==> Declares(event, "RecordCommitmentDue", payload) && c.due(payload))
            && (p == Refuse || (p.Attempt? && p.call.RecordDue?))
  {
    EnvelopeExact(event, {WATCHER_OPERATION}, WATCHER_OPERATION, payload);
    var envelope := ReadEnvelope(event, {WATCHER_OPERATION});
    if envelope.Ok? { EnvelopeExact(event, {WATCHER_OPERATION}, envelope.value.0, envelope.value.1); }
    hide ReadEnvelope, Declares;
  }

  /** The effects of one invocation, from the plan and the surroundings alone. */
  function Effects(p: Plan, w: World, composed: bool): seq<Effect> {
    if p.Refuse? || p.Escape? || (!composed && !w.buildable) then []
    else
      [ReadClock(w.clock)] +
      if w.clock.Reading? && p.Attempt? then [Execute(p.call, Some(w.clock.instant))] else []
  }

  function Composed(p: Plan, w: World, composed: bool): bool {
    composed || (w.buildable && !p.Refuse? && !p.Escape?)
  }

  /** Whether a use case's failure is turned into an answer: by the sender always, by the compiler for a compile. */
  predicate Encodes(call: Call) { call.SendAction? || call.CompileView? }

  function CallReply(call: Call, w: World): Reply {
    if w.answer.Returned? then Answered else if w.answer.Recognised? && Encodes(call) then EncodedFailure else Raised
  }

  function ReplyTo(p: Plan, w: World, composed: bool): Reply {
    if p.Refuse? then Refusal
    else if p.Escape? || (!composed && !w.buildable) then Raised
    else if w.clock.DemoClockError? then InvocationFailed
    else if w.clock.OtherClockError? then Raised
    else if p.RefuseUnderClock? then Refusal
    else CallReply(p.call, w)
  }

  // ---------- Whole runs ----------

  function Plans(h: Handler, c: Contracts, events: seq<(Json, World)>): seq<(Plan, World)> {
    seq(|events|, i requires 0 <= i < |events| => (PlanOf(h, c, events[i].0), events[i].1))
  }

  lemma PlansExtend(h: Handler, c: Contracts, events: seq<(Json, World)>, i: nat)
    requires i < |events|
    ensures Plans(h, c, events[..i + 1]) == Plans(h, c, events[..i]) + [(PlanOf(h, c, events[i].0), events[i].1)]
  {
    hide PlanOf;
  }

  function RunComposed(ps: seq<(Plan, World)>, composed: bool): bool {
    if ps == [] then composed
    else
      var n := |ps| - 1;
      Composed(ps[n].0, ps[n].1, RunComposed(ps[..n], composed))
  }

  function RunEffects(ps: seq<(Plan, World)>, composed: bool): seq<Effect> {
    if ps == [] then []
    else
      var n := |ps| - 1;
      RunEffects(ps[..n], composed) + Effects(ps[n].0, ps[n].1, RunComposed(ps[..n], composed))
  }

  function RunReplies(ps: seq<(Plan, World)>, composed: bool): (replies: seq<Reply>)
    ensures |replies| == |ps|
  {
    if ps == [] then []
    else
      var n := |ps| - 1;
      RunReplies(ps[..n], composed) + [ReplyTo(ps[n].0, ps[n].1, RunComposed(ps[..n], composed))]
  }

  lemma RunExtend(ps: seq<(Plan, World)>, p: Plan, w: World, composed: bool)
    ensures RunComposed(ps + [(p, w)], composed) == Composed(p, w, RunComposed(ps, composed))
    ensures RunEffects(ps + [(p, w)], composed) == RunEffects(ps, composed) + Effects(p, w, RunComposed(ps, composed))
    ensures RunReplies(ps + [(p, w)], composed) == RunReplies(ps, composed) + [ReplyTo(p, w, RunComposed(ps, composed))]
  {
    assert (ps + [(p, w)])[..|ps|] == ps;
  }

  lemma NoEvents(h: Handler, c: Contracts, events: seq<(Json, World)>, composed: bool)
    ensures var ps := Plans(h, c, events[..0]);
            RunReplies(ps, composed) == [] && RunComposed(ps, composed) == composed && RunEffects(ps, composed) == []
  {
    hide PlanOf;
    assert Plans(h, c, events[..0]) == [];
  }

  /** What one more event adds to a run. */
  lemma NextEvent(h: Handler, c: Contracts, events: seq<(Json, World)>, i: nat, composed: bool)
    requires i < |events|
    ensures var before, after := Plans(h, c, events[..i]), Plans(h, c, events[..i + 1]);
            var p, w, warm := PlanOf(h, c, events[i].0), events[i].1, RunComposed(before, composed);
            && RunComposed(after, composed) == Composed(p, w, warm)
            && RunEffects(after, composed) == RunEffects(before, composed) + Effects(p, w, warm)
            && RunReplies(after, composed) == RunReplies(before, composed) + [ReplyTo(p, w, warm)]
  {
    hide PlanOf, Effects, ReplyTo, Composed, Plans, RunComposed, RunEffects, RunReplies;
    PlansExtend(h, c, events, i);
    RunExtend(Plans(h, c, events[..i]), PlanOf(h, c, events[i].0), events[i].1, composed);
  }

  // ---------- The process ----------

  /** One execution environment: the lazily built object graph, the clock scope, and what it has done. */
  class Process {
    var composition: bool
    var variable: Option<Instant>
    var trace: seq<Effect>

    constructor ()
      ensures !composition && variable == None && trace == []
    {
      composition, variable, trace := false, None, [];
    }

    /** Build once per environment, on first use. */
    method Compose(w: World) returns (ok: bool)
      modifies this
      ensures ok == (old(composition) || w.buildable)
      ensures composition == ok && variable == old(variable) && trace == old(trace)
    {
      if !composition { composition := w.buildable; }
      ok := composition;
    }

    /** One call made with whatever instant is bound; nothing is answered in its place. */
    method Perform(call: Call)
      modifies this
      ensures trace == old(trace) + [Execute(call, old(variable))]
      ensures composition == old(composition) && variable == old(variable)
    {
      trace := trace + [Execute(call, variable)];
    }

    method Read(w: World) returns (answer: ClockAnswer)
      modifies this
      ensures answer == w.clock && trace == old(trace) + [ReadClock(answer)]
      ensures composition == old(composition) && variable == old(variable)
    {
      answer := w.clock;
      trace := trace + [ReadClock(answer)];
    }

    method RunWorker(c: Contracts, event: Json, w: World) returns (reply: Reply)
      modifies this
      ensures Ran(WorkerHandler, c, event, w, reply, old(composition), old(variable), old(trace))
    {
      hide PlanOf, ParseJob;
      WorkerPlan(c, event);
      var parsed := ParseJob(c.lib, event);
      if parsed.Fault? { return Raised; }
      if parsed.Refused? { return Refusal; }
      var (kind, job) := parsed.value;
      var built := Compose(w);
      if !built { return Raised; }
      if kind !in RUNNERS { return Refusal; }
      var runner := RUNNERS[kind];
      var answer := Read(w);
      if answer.DemoClockError? { return InvocationFailed; }
      if answer.OtherClockError? { return Raised; }
      var token := variable;
      variable := Some(answer.instant);
      Perform(RunJob(runner, job));
      variable := token;
      reply := if w.answer.Returned? then Answered else Raised;
    }

    /** Inside the clock scope: decode for the declared operation, then call. */
    method Dispatch(c: Contracts, operation: string, payload: Json, w: World) returns (reply: Reply)
      modifies this
      ensures var p := CompilerPlan(c, operation, payload);
              && reply == (if p.Attempt? then CallReply(p.call, w) else Refusal)
              && trace == old(trace) + if p.Attempt? then [Execute(p.call, old(variable))] else []
      ensures variable == old(variable) && composition == old(composition)
    {
      if operation == COMPILE_OPERATION {
        if !c.compile(payload) { return Refusal; }
        Perform(CompileView(payload));
        reply := if w.answer.Returned? then Answered else if w.answer.Recognised? then EncodedFailure else Raised;
      } else if operation == ACQUIRE_OPERATION {
        if !c.fence(payload) { return Refusal; }
        Perform(AuthorizeSend(payload));
        reply := if w.answer.Returned? then Answered else Raised;
      } else {
        if !c.release(payload) { return Refusal; }
        Perform(ReleaseFence(payload));
        reply := if w.answer.Returned? then Answered else Raised;
      }
    }

    /** The compiler reads the clock before it decodes a request, so a malformed one costs a reading. */
    method RunCompiler(c: Contracts, event: Json, w: World) returns (reply: Reply)
      modifies this
      ensures Ran(CompilerHandler, c, event, w, reply, old(composition), old(variable), old(trace))
    {
      hide PlanOf, ReadEnvelope, CallReply, CompilerPlan;
      CompilerPlans(c, event);
      var envelope := ReadEnvelope(event, {COMPILE_OPERATION, ACQUIRE_OPERATION, RELEASE_OPERATION});
      if !envelope.Ok? { return Refusal; }
      var (operation, payload) := envelope.value;
      var built := Compose(w);
      if !built { return Raised; }
      var answer := Read(w);
      if answer.DemoClockError? { return InvocationFailed; }
      if answer.OtherClockError? { return Raised; }
      var token := variable;
      variable := Some(answer.instant);
      reply := Dispatch(c, operation, payload, w);
      variable := token;
    }

    method RunSender(c: Contracts, event: Json, w: World) returns (reply: Reply)
      modifies this
      ensures Ran(SenderHandler, c, event, w, reply, old(composition), old(variable), old(trace))
    {
      var envelope := ReadEnvelope(event, {SEND_OPERATION});
      ghost var plan := PlanOf(SenderHandler, c, event);
      assert plan ==
        if envelope.Ok? && c.send(envelope.value.1) then Attempt(SendAction(envelope.value.1)) else Refuse;
      hide PlanOf, ReadEnvelope;
      if !envelope.Ok? || !c.send(envelope.value.1) { return Refusal; }
      var built := Compose(w);
      if !built { return Raised; }
      var answer := Read(w);
      if answer.DemoClockError? { return InvocationFailed; }
      if answer.OtherClockError? { return Raised; }
      var token := variable;
      variable := Some(answer.instant);
      Perform(SendAction(envelope.value.1));
      variable := token;
      reply := if w.answer.Returned? then Answered else if w.answer.Recognised? then EncodedFailure else Raised;
    }

    method RunWatcher(c: Contracts, event: Json, w: World) returns (reply: Reply)
      modifies this
      ensures Ran(WatcherHandler, c, event, w, reply, old(composition), old(variable), old(trace))
    {
      var envelope := ReadEnvelope(event, {WATCHER_OPERATION});
      ghost var plan := PlanOf(WatcherHandler, c, event);
      assert plan ==
        if envelope.Ok? && c.due(envelope.value.1) then Attempt(RecordDue(envelope.value.1)) else Refuse;
      hide PlanOf, ReadEnvelope;
      if !envelope.Ok? || !c.due(envelope.value.1) { return Refusal; }
      var built := Compose(w);
      if !built { return Raised; }
      var answer := Read(w);
      if answer.DemoClockError? { return InvocationFailed; }
      if answer.OtherClockError? { return Raised; }
      var token := variable;
      variable := Some(answer.instant);
      Perform(RecordDue(envelope.value.1));
      variable := token;
      reply := if w.answer.Returned? then Answered else Raised;
    }

    /** The whole effect of one invocation: the reply, the trace it leaves, and the clock scope as it was. */
    ghost predicate Ran(h: Handler, c: Contracts, event: Json, w: World, reply: Reply,
                        composedBefore: bool, boundBefore: Option<Instant>, traceBefore: seq<Effect>)
      reads this
    {
      var p := PlanOf(h, c, event);
      && reply == ReplyTo(p, w, composedBefore)
      && trace == traceBefore + Effects(p, w, composedBefore)
      && variable == boundBefore
      && composition == Composed(p, w, composedBefore)
    }

    method Run(h: Handler, c: Contracts, event: Json, w: World) returns (reply: Reply)
      modifies this
      ensures Ran(h, c, event, w, reply, old(composition), old(variable), old(trace))
    {
      match h
      case WorkerHandler => reply := RunWorker(c, event, w);
      case CompilerHandler => reply := RunCompiler(c, event, w);
      case SenderHandler => reply := RunSender(c, event, w);
      case WatcherHandler => reply := RunWatcher(c, event, w);
    }

    /** A warm process: any events, one after another. */
    method Serve(h: Handler, c: Contracts, events: seq<(Json, World)>) returns (replies: seq<Reply>)
      modifies this
      ensures replies == RunReplies(Plans(h, c, events), old(composition))
      ensures trace == old(trace) + RunEffects(Plans(h, c, events), old(composition))
      ensures variable == old(variable)
    {
      hide PlanOf, Effects, ReplyTo, Composed, Plans, RunComposed, RunEffects, RunReplies;
      replies := [];
      var n := |events|;
      NoEvents(h, c, events, composition);
      for i := 0 to n
        invariant variable == old(variable)
        invariant replies == RunReplies(Plans(h, c, events[..i]), old(composition))
        invariant composition == RunComposed(Plans(h, c, events[..i]), old(composition))
        invariant trace == old(trace) + RunEffects(Plans(h, c, events[..i]), old(composition))
      {
        var reply := Run(h, c, events[i].0, events[i].1);
        replies := replies + [reply];
        NextEvent(h, c, events, i, old(composition));
      }
      assert events[..n] == events;
    }
  }

  // ---------- What every run keeps ----------

  /** Every use-case call comes straight after a reading, and is made under exactly that reading. */
  ghost predicate OneReadingEach(trace: seq<Effect>) {
    forall i :: 0 <= i < |trace| && trace[i].Execute? ==>
      0 < i && trace[i - 1].ReadClock? && trace[i - 1].answer.Reading? && trace[i].now == Some(trace[i - 1].answer.instant)
  }

  function Readings(trace: seq<Effect>): nat {
    if trace == [] then 0 else Readings(trace[..|trace| - 1]) + if trace[|trace| - 1].ReadClock? then 1 else 0
  }

  lemma ReadingsOf(trace: seq<Effect>, more: seq<Effect>)
    ensures Readings(trace + more) == Readings(trace) + Readings(more)
  {
    if more == [] {
      assert trace + more == trace;
    } else {
      var n := |more| - 1;
      assert (trace + more)[..|trace + more| - 1] == trace + more[..n];
      ReadingsOf(trace, more[..n]);
    }
  }

  lemma ReadingEachConcat(a: seq<Effect>, b: seq<Effect>)
    requires OneReadingEach(a) && OneReadingEach(b)
    ensures OneReadingEach(a + b)
  {
    var s := a + b;
    forall i | 0 <= i < |s| && s[i].Execute?
      ensures 0 < i && s[i - 1].ReadClock? && s[i - 1].answer.Reading? && s[i].now == Some(s[i - 1].answer.instant)
    {
      if |a| <= i { assert s[i] == b[i - |a|]; }
    }
  }

  lemma OneInvocation(p: Plan, w: World, composed: bool)
    ensures OneReadingEach(Effects(p, w, composed)) && Readings(Effects(p, w, composed)) <= 1
  {
    var es, first := Effects(p, w, composed), [ReadClock(w.clock)];
    if es != [] {
      assert es == first + es[1..] && first[..0] == [];
      ReadingsOf(first, es[1..]);
      if |es| == 2 { assert es[1..][..0] == []; }
    }
  }

  /** Over any events: each call has its own reading, and no invocation takes more than one. */
  lemma {:induction false} ClockProtocol(ps: seq<(Plan, World)>, composed: bool)
    ensures OneReadingEach(RunEffects(ps, composed))
    ensures Readings(RunEffects(ps, composed)) <= |ps|
  {
    assert OneReadingEach([]) && Readings([]) == 0;
    hide Effects, ReplyTo, Composed, Readings, OneReadingEach;
    if ps != [] {
      var n := |ps| - 1;
      var warm := RunComposed(ps[..n], composed);
      ClockProtocol(ps[..n], composed);
      OneInvocation(ps[n].0, ps[n].1, warm);
      ReadingEachConcat(RunEffects(ps[..n], composed), Effects(ps[n].0, ps[n].1, warm));
      ReadingsOf(RunEffects(ps[..n], composed), Effects(ps[n].0, ps[n].1, warm));
    }
  }

  /** How many readings failed, and how many calls were made. */
  function FailedReadings(trace: seq<Effect>): nat {
    if trace == [] then 0
    else FailedReadings(trace[..|trace| - 1]) + if trace[|trace| - 1] == ReadClock(DemoClockError) then 1 else 0
  }

  function Calls(trace: seq<Effect>): nat {
    if trace == [] then 0 else Calls(trace[..|trace| - 1]) + if trace[|trace| - 1].Execute? then 1 else 0
  }

  function Retryable(replies: seq<Reply>): nat {
    if replies == [] then 0
    else Retryable(replies[..|replies| - 1]) + if replies[|replies| - 1].InvocationFailed? then 1 else 0
  }

  function Settled(replies: seq<Reply>): nat {
    if replies == [] then 0
    else
      var last := replies[|replies| - 1];
      Settled(replies[..|replies| - 1]) + if last.Answered? || last.EncodedFailure? then 1 else 0
  }

  lemma CountsOf(trace: seq<Effect>, more: seq<Effect>)
    ensures FailedReadings(trace + more) == FailedReadings(trace) + FailedReadings(more)
    ensures Calls(trace + more) == Calls(trace) + Calls(more)
  {
    if more == [] {
      assert trace + more == trace;
    } else {
      var n := |more| - 1;
      assert (trace + more)[..|trace + more| - 1] == trace + more[..n];
      CountsOf(trace, more[..n]);
    }
  }

  lemma OneAccount(p: Plan, w: World, composed: bool)
    ensures var es, reply := Effects(p, w, composed), ReplyTo(p, w, composed);
            && FailedReadings(es) == (if reply.InvocationFailed? then 1 else 0)
            && Calls(es) <= 1 && (reply.Answered? || reply.EncodedFailure? ==> Calls(es) == 1)
            && (Calls(es) == 1 ==> reply.Answered? || reply.EncodedFailure? || reply.Raised?)
  {
    var es, first := Effects(p, w, composed), [ReadClock(w.clock)];
    if es != [] {
      assert es == first + es[1..] && first[..0] == [];
      CountsOf(first, es[1..]);
      if |es| == 2 { assert es[1..][..0] == []; }
    }
  }

  /**
   The account of a whole run: an invocation is failed for retry exactly as often as a reading
   failed, so never after a call was made; and every answer that is not a refusal stands for one call.
   */
  lemma {:induction false} RunsAddUp(ps: seq<(Plan, World)>, composed: bool)
    ensures Retryable(RunReplies(ps, composed)) == FailedReadings(RunEffects(ps, composed))
    ensures Settled(RunReplies(ps, composed)) <= Calls(RunEffects(ps, composed)) <= |ps|
  {
    hide Effects, ReplyTo, Composed;
    if ps != [] {
      var n := |ps| - 1;
      var warm := RunComposed(ps[..n], composed);
      RunsAddUp(ps[..n], composed);
      OneAccount(ps[n].0, ps[n].1, warm);
      CountsOf(RunEffects(ps[..n], composed), Effects(ps[n].0, ps[n].1, warm));
      var replies := RunReplies(ps, composed);
      assert replies[..n] == RunReplies(ps[..n], composed);
    }
  }

  /** A refused event leaves a run as if it had never been delivered. */
  lemma {:induction false} RefusalsLeaveNoTrace(a: seq<(Plan, World)>, w: World, b: seq<(Plan, World)>, composed: bool)
    ensures RunEffects(a + [(Refuse, w)] + b, composed) == RunEffects(a + b, composed)
    ensures RunComposed(a + [(Refuse, w)] + b, composed) == RunComposed(a + b, composed)
  {
    if b == [] {
      assert a + [(Refuse, w)] + b == a + [(Refuse, w)] && a + b == a;
      RunExtend(a, Refuse, w, composed);
    } else {
      var n := |b| - 1;
      RefusalsLeaveNoTrace(a, w, b[..n], composed);
      assert b == b[..n] + [b[n]];
      assert a + [(Refuse, w)] + b == (a + [(Refuse, w)] + b[..n]) + [b[n]] && a + b == (a + b[..n]) + [b[n]];
      RunExtend(a + [(Refuse, w)] + b[..n], b[n].0, b[n].1, composed);
      RunExtend(a + b[..n], b[n].0, b[n].1, composed);
    }
  }

  // ---------- From the dispatcher to the runner ----------

  /** The runner registered for a job's kind. */
  function RunnerFor(j: OperationJob): Runner {
    match j
    case MonitorJob(_, _, _) => MonitorRunner
    case InvestigationJob(_, _, _, _, _, _) => InvestigatorRunner
    case ProposeActionJob(_, _, _, _, _, _, _) => ProposerRunner
    case ExtractCommitmentJob(_, _, _, _, _, _) => ExtractorRunner
    case SendActionJob(_, _, _, _, _, _, _) => SenderRunner
  }

  /** A job's handover reaches its own runner with an equal job, or, when it cannot be read back, is refused for good. */
  lemma HandoverReachesRunner(c: Contracts, j: OperationJob)
    requires Lawful(c.lib)
    ensures PlanOf(WorkerHandler, c, Handover(j)) == if Survives(j) then Attempt(RunJob(RunnerFor(j), j)) else Refuse
  {
    hide ParseJob, Handover, Survives;
    HandoverParses(c.lib, j);
  }

  /** Some build has succeeded by the end of these deliveries. */
  predicate Warm(ws: seq<World>, composed: bool) { composed || exists w :: w in ws && w.buildable }

  /**
   Deliveries of one handover: until a build succeeds nothing happens; from then on each takes its own
   reading and, when it has one, runs the job once under it.
   */
  function EachOnce(call: Call, ws: seq<World>, composed: bool): seq<Effect> {
    if ws == [] then []
    else
      var n := |ws| - 1;
      EachOnce(call, ws[..n], composed) +
      if !Warm(ws, composed) then []
      else [ReadClock(ws[n].clock)] + if ws[n].clock.Reading? then [Execute(call, Some(ws[n].clock.instant))] else []
  }

  function Repeated<A>(x: A, ws: seq<World>): seq<(A, World)> { seq(|ws|, i requires 0 <= i < |ws| => (x, ws[i])) }

  lemma NothingRepeated(p: Plan)
    ensures Repeated(p, []) == []
  {
  }

  lemma RepeatedExtend(p: Plan, ws: seq<World>)
    requires ws != []
    ensures Repeated(p, ws) == Repeated(p, ws[..|ws| - 1]) + [(p, ws[|ws| - 1])]
  {
  }

  lemma WarmExtend(ws: seq<World>, composed: bool)
    requires ws != []
    ensures Warm(ws, composed) <==> Warm(ws[..|ws| - 1], composed) || ws[|ws| - 1].buildable
  {
    assert ws == ws[..|ws| - 1] + [ws[|ws| - 1]];
  }

  lemma NothingWarms(composed: bool)
    ensures Warm([], composed) == composed
  {
  }

  lemma {:induction false} RepeatedEffects(call: Call, ws: seq<World>, composed: bool)
    ensures RunEffects(Repeated(Attempt(call), ws), composed) == EachOnce(call, ws, composed)
    ensures RunComposed(Repeated(Attempt(call), ws), composed) == Warm(ws, composed)
  {
    hide Repeated, RunReplies, Warm;
    if ws == [] {
      assert Repeated(Attempt(call), ws) == [] by { NothingRepeated(Attempt(call)); }
      assert Warm(ws, composed) == composed by { NothingWarms(composed); }
    } else {
      var n, p := |ws| - 1, Attempt(call);
      RepeatedEffects(call, ws[..n], composed);
      RepeatedExtend(p, ws);
      RunExtend(Repeated(p, ws[..n]), p, ws[n], composed);
      WarmExtend(ws, composed);
    }
  }

  /** Any number of deliveries of one handover, whatever builds, readings and answers they meet. */
  lemma RepeatedDelivery(c: Contracts, j: OperationJob, ws: seq<World>, composed: bool)
    requires Lawful(c.lib) && Survives(j)
    ensures RunEffects(Plans(WorkerHandler, c, Repeated(Handover(j), ws)), composed) ==
            EachOnce(RunJob(RunnerFor(j), j), ws, composed)
  {
    hide PlanOf, Handover, Survives, RunEffects, EachOnce;
    HandoverReachesRunner(c, j);
    var call := RunJob(RunnerFor(j), j);
    RepeatedEffects(call, ws, composed);
    assert Plans(WorkerHandler, c, Repeated(Handover(j), ws)) == Repeated(Attempt(call), ws);
  }

  /** No accepted event falls through: what the worker attempts is a job that can be read back, under its own kind's runner. */
  lemma AttemptsAreJobs(c: Contracts, event: Json)
    requires Lawful(c.lib)
    ensures var p := PlanOf(WorkerHandler, c, event);
            p.Attempt? ==>
              && p.call.RunJob? && p.call.runner == RunnerFor(p.call.job)
              && Survives(p.call.job)
              && event.Obj? && Carries(Get(event.fields, Payload), EncodeJob(p.call.job))
  {
    hide ParseJob, EncodeJob, Carries, Survives;
    match ParseJob(c.lib, event)
    case Ok((kind, j)) => ParsedIsCarried(c.lib, event, kind, j);
    case _ =>
  }

  /** The one event the worker neither refuses nor runs: its schema version cannot be hashed. */
  lemma EscapesExactly(c: Contracts, event: Json)
    ensures PlanOf(WorkerHandler, c, event) == Escape <==>
            && ReadEnvelope(event, KIND_NAMES).Ok?
            && var payload := ReadEnvelope(event, KIND_NAMES).value.1;
               payload.Obj? && (Get(payload.fields, Schema).List? || Get(payload.fields, Schema).Obj?)
  {
    hide DecodeJob;
    var envelope := ReadEnvelope(event, KIND_NAMES);
    if envelope.Ok? { FaultsExactly(c.lib, envelope.value.1); }
  }

  // ---------- Which events make which calls, and how each is answered ----------

  /** Any of the five names, and a payload that carries the whole encoding of an acceptable job. */
  predicate AsksForJob(event: Json, j: OperationJob) {
    && event.Obj? && Get(event.fields, Operation).Str?
    && Get(event.fields, Operation).text in {"MONITOR", "INVESTIGATE", "PROPOSE_ACTION", "EXTRACT_COMMITMENT", "SEND_ACTION"}
    && Survives(j) && Carries(Get(event.fields, Payload), EncodeJob(j))
  }

  /** The event asks this handler for this call: the operation, its decoder and the payload, or the carried job. */
  predicate Asked(h: Handler, c: Contracts, event: Json, call: Call) {
    match call
    case CompileView(r) => h == CompilerHandler && Declares(event, "CompileView", r) && c.compile(r)
    case AuthorizeSend(r) => h == CompilerHandler && Declares(event, "AcquireSendAuthorizationFence", r) && c.fence(r)
    case ReleaseFence(r) => h == CompilerHandler && Declares(event, "ReleaseSendAuthorizationFence", r) && c.release(r)
    case SendAction(r) => h == SenderHandler && Declares(event, "SendAction", r) && c.send(r)
    case RecordDue(r) => h == WatcherHandler && Declares(event, "RecordCommitmentDue", r) && c.due(r)
    case RunJob(runner, j) => h == WorkerHandler && AsksForJob(event, j) && runner == RunnerFor(j)
  }

  lemma ParsesExactly(lib: Library, event: Json, j: OperationJob)
    requires Lawful(lib)
    ensures ParseJob(lib, event) == Ok((KindOf(j), j)) <==> AsksForJob(event, j)
  {
    hide DecodeJob, EncodeJob, Survives, ReadEnvelope;
    KindNamesFit();
    if event.Obj? && Get(event.fields, Operation).Str? {
      var operation, payload := Get(event.fields, Operation).text, Get(event.fields, Payload);
      EnvelopeExact(event, KIND_NAMES, operation, payload);
      DecodesExactly(lib, payload, KindOf(j), j);
      EncodedSchema(j);
    }
    var envelope := ReadEnvelope(event, KIND_NAMES);
    if envelope.Ok? { EnvelopeExact(event, KIND_NAMES, envelope.value.0, envelope.value.1); }
  }

  lemma WorkerAsks(c: Contracts, event: Json, call: Call)
    requires Lawful(c.lib) && call.RunJob?
    ensures PlanOf(WorkerHandler, c, event) == Attempt(call) <==> AsksForJob(event, call.job) && call.runner == RunnerFor(call.job)
  {
    hide ParseJob, AsksForJob;
    WorkerPlan(c, event);
    ParsesExactly(c.lib, event, call.job);
    var parsed := ParseJob(c.lib, event);
    if parsed.Ok? { ParsedIsCarried(c.lib, event, parsed.value.0, parsed.value.1); }
  }

  /** Every handler, every event, every call: it is planned exactly when the event asks for it. */
  lemma PlansExactly(h: Handler, c: Contracts, event: Json, call: Call)
    requires Lawful(c.lib)
    ensures PlanOf(h, c, event) == Attempt(call) <==> Asked(h, c, event, call)
  {
    var r := if call.RunJob? then Null else call.request;
    CompilerAsksExactly(c, event, r);
    SenderAsksExactly(c, event, r);
    WatcherAsksExactly(c, event, r);
    WorkerPlan(c, event);
    if call.RunJob? { WorkerAsks(c, event, call); }
    hide PlanOf, Declares, AsksForJob, ParseJob;
  }

  /** By this invocation the graph is built: it was from the start, or some accepted event's build succeeded. */
  predicate Ready(ps: seq<(Plan, World)>, i: nat, composed: bool)
    requires i < |ps|
  {
    composed || exists k :: 0 <= k <= i && ps[k].1.buildable && (ps[k].0.Attempt? || ps[k].0.RefuseUnderClock?)
  }

  lemma {:induction false} ReadyIsComposed(ps: seq<(Plan, World)>, i: nat, composed: bool)
    requires i < |ps|
    ensures Ready(ps, i, composed) <==> RunComposed(ps[..i + 1], composed)
  {
    assert ps[..i + 1][..i] == ps[..i];
    if i == 0 {
      assert RunComposed(ps[..0], composed) == composed;
    } else {
      ReadyIsComposed(ps, i - 1, composed);
    }
  }

  /** A call of this run, and the invocation that made it. */
  predicate MadeBy(ps: seq<(Plan, World)>, i: nat, composed: bool, call: Call, now: Option<Instant>)
    requires i < |ps|
  {
    ps[i].0 == Attempt(call) && Ready(ps, i, composed) && now.Some? && ps[i].1.clock == Reading(now.value)
  }

  lemma MadeByPrefix(ps: seq<(Plan, World)>, n: nat, i: nat, composed: bool, call: Call, now: Option<Instant>)
    requires i < n <= |ps|
    ensures MadeBy(ps[..n], i, composed, call, now) <==> MadeBy(ps, i, composed, call, now)
  {
    ReadyIsComposed(ps, i, composed);
    ReadyIsComposed(ps[..n], i, composed);
    assert ps[..n][..i + 1] == ps[..i + 1];
  }

  lemma CallOfOne(p: Plan, w: World, composed: bool, call: Call, now: Option<Instant>)
    ensures Execute(call, now) in Effects(p, w, composed) <==>
            p == Attempt(call) && Composed(p, w, composed) && now.Some? && w.clock == Reading(now.value)
  {
  }

  lemma CallOfLast(ps: seq<(Plan, World)>, composed: bool, call: Call, now: Option<Instant>)
    requires ps != []
    ensures var n := |ps| - 1;
            Execute(call, now) in RunEffects(ps, composed) <==>
            Execute(call, now) in RunEffects(ps[..n], composed) || MadeBy(ps, n, composed, call, now)
  {
    hide Effects, Ready;
    var n := |ps| - 1;
    ReadyIsComposed(ps, n, composed);
    assert ps[..n + 1] == ps;
    CallOfOne(ps[n].0, ps[n].1, RunComposed(ps[..n], composed), call, now);
  }

  /** What the calls of a run are, exactly: those planned by an event whose graph was built and whose clock was read. */
  lemma {:induction false} CallsExactly(ps: seq<(Plan, World)>, composed: bool, call: Call, now: Option<Instant>)
    ensures Execute(call, now) in RunEffects(ps, composed) <==> exists i: nat :: i < |ps| && MadeBy(ps, i, composed, call, now)
  {
    if ps != [] {
      var n := |ps| - 1;
      CallsExactly(ps[..n], composed, call, now);
      CallOfLast(ps, composed, call, now);
      hide MadeBy, RunEffects;
      forall i: nat | i < n ensures MadeBy(ps[..n], i, composed, call, now) <==> MadeBy(ps, i, composed, call, now) {
        MadeByPrefix(ps, n, i, composed, call, now);
      }
    }
  }

  /** How each invocation of a run is answered, exactly. */
  lemma {:induction false} RepliesExactly(ps: seq<(Plan, World)>, composed: bool, i: nat)
    requires i < |ps|
    ensures var (p, w), reply, ready := ps[i], RunReplies(ps, composed)[i], Ready(ps, i, composed);
            && (reply == Refusal <==> p.Refuse? || (p.RefuseUnderClock? && ready && w.clock.Reading?))
            && (reply == InvocationFailed <==> (p.Attempt? || p.RefuseUnderClock?) && ready && w.clock == DemoClockError)
            && (reply == Answered <==> p.Attempt? && ready && w.clock.Reading? && w.answer == Returned)
            && (reply == EncodedFailure <==>
                  && p.Attempt? && ready && w.clock.Reading? && w.answer == Recognised
                  && (p.call.SendAction? || p.call.CompileView?))
  {
    var n := |ps| - 1;
    ReadyIsComposed(ps, i, composed);
    if i == n {
      assert ps[..n + 1] == ps;
    } else {
      RepliesExactly(ps[..n], composed, i);
      ReadyIsComposed(ps[..n], i, composed);
      assert ps[..n][..i + 1] == ps[..i + 1];
    }
  }

  predicate AskedAt(h: Handler, c: Contracts, events: seq<(Json, World)>, i: nat, composed: bool, call: Call, now: Option<Instant>)
    requires i < |events|
  {
    && Asked(h, c, events[i].0, call) && now.Some? && events[i].1.clock == Reading(now.value)
    && Ready(Plans(h, c, events), i, composed)
  }

  /** Whatever is called in a run was asked for by a delivered event, under that event's own reading; and the other way round. */
  lemma CallsWereAsked(h: Handler, c: Contracts, events: seq<(Json, World)>, composed: bool, call: Call, now: Option<Instant>)
    requires Lawful(c.lib)
    ensures var ps := Plans(h, c, events);
            Execute(call, now) in RunEffects(ps, composed) <==>
              exists i: nat :: i < |events| && AskedAt(h, c, events, i, composed, call, now)
  {
    hide PlanOf, Asked, Ready, RunEffects;
    var ps := Plans(h, c, events);
    CallsExactly(ps, composed, call, now);
    forall i: nat | i < |events| ensures MadeBy(ps, i, composed, call, now) <==> AskedAt(h, c, events, i, composed, call, now) {
      PlansExactly(h, c, events[i].0, call);
    }
  }
}
