/** The one envelope every internal invocation takes, and the dispatcher that fills it with a job. */
module Dispatch {
  import opened Wire
  import opened Identifiers
  import opened Jobs

  const MAX_OPERATION_LENGTH := 64

  /** The declared operation and its payload, or a refusal of the event. */
  function ReadEnvelope(event: Json, accepted: set<string>): Outcome<(string, Json)> {
    if !event.Obj? then Refused
    else
      var operation := Get(event.fields, Operation);
      if !operation.Str? || operation.text == "" then Refused
      else if MAX_OPERATION_LENGTH < |operation.text| then Refused
      else if operation.text !in accepted then Refused
      else
        var payload := Get(event.fields, Payload);
        if payload.Obj? then Ok((operation.text, payload)) else Refused
  }

  function Event(operation: string, payload: Json): Json { Obj(map[Operation := Str(operation), Payload := payload]) }

  /** An event that declares this operation and carries this payload, whatever else it holds. */
  predicate Declares(event: Json, operation: string, payload: Json) {
    event.Obj? && Get(event.fields, Operation) == Str(operation) && Get(event.fields, Payload) == payload && payload.Obj?
  }

  /** Nothing but the operation and the payload decides what an event means; no name beyond 64 characters is read. */
  lemma EnvelopeExact(event: Json, accepted: set<string>, operation: string, payload: Json)
    ensures ReadEnvelope(event, accepted) == Ok((operation, payload)) <==>
            operation in accepted && 1 <= |operation| <= 64 && Declares(event, operation, payload)
    ensures !ReadEnvelope(event, accepted).Fault?
  {
  }

  const KIND_NAMES: set<string> :=
    {KindText(MONITOR), KindText(INVESTIGATE), KindText(PROPOSE_ACTION), KindText(EXTRACT_COMMITMENT), KindText(SEND_ACTION)}

  lemma KindNamesFit()
    ensures forall a :: a in KIND_NAMES ==> 0 < |a| <= 64
    ensures forall k :: KindText(k) in KIND_NAMES
  {
    forall k ensures KindText(k) in KIND_NAMES { match k case _ => }
  }

  /** What the dispatcher hands to the worker for a job. */
  function Handover(j: OperationJob): Json { Event(KindText(KindOf(j)), EncodeJob(j)) }

  /** The worker's parse: envelope, then job. */
  function ParseJob(lib: Library, event: Json): Outcome<(WorkerJobKind, OperationJob)> {
    var (_, payload) :- ReadEnvelope(event, KIND_NAMES);
    DecodeJob(lib, payload)
  }

  /** A handover parses to its own job, or, for a job that cannot be read back, is refused. */
  lemma HandoverParses(lib: Library, j: OperationJob)
    requires Lawful(lib)
    ensures ParseJob(lib, Handover(j)) == if Survives(j) then Ok((KindOf(j), j)) else Refused
  {
    hide DecodeJob, KindText, EncodeBinding, EncodeOwn;
    KindNamesFit();
    JobRoundTrip(lib, j);
    EnvelopeExact(Handover(j), KIND_NAMES, KindText(KindOf(j)), EncodeJob(j));
  }

  /** Whatever the worker parses carries that job's whole encoding. */
  lemma ParsedIsCarried(lib: Library, event: Json, kind: WorkerJobKind, j: OperationJob)
    requires Lawful(lib) && ParseJob(lib, event) == Ok((kind, j))
    ensures kind == KindOf(j) && Survives(j)
    ensures event.Obj? && Carries(Get(event.fields, Payload), EncodeJob(j))
  {
    hide DecodeJob, EncodeJob, KindText, Survives;
    DecodesExactly(lib, Get(event.fields, Payload), kind, j);
  }

  /** The envelope's operation admits an event and does not choose its runner: any of the five names will do. */
  lemma OperationIsNotCrossChecked(lib: Library, j: OperationJob, other: WorkerJobKind)
    requires Lawful(lib) && Survives(j)
    ensures ParseJob(lib, Event(KindText(other), EncodeJob(j))) == Ok((KindOf(j), j))
  {
    hide DecodeJob, KindText, EncodeBinding, EncodeOwn;
    KindNamesFit();
    JobRoundTrip(lib, j);
    EnvelopeExact(Event(KindText(other), EncodeJob(j)), KIND_NAMES, KindText(other), EncodeJob(j));
  }
}
