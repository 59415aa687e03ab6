/**
 The runtimes' ASGI server: a bounded body read, at most one handler call, and exactly one answer.
 */
module RuntimeServer {
  import opened Text

  const MAX_REQUEST_BYTES := 1_048_576

  /** The program's own closed reason codes are ASCII. */
  function Ascii(s: string): (b: Bytes)
    ensures |b| == |s| && forall i :: 0 <= i < |s| && s[i] as int < 128 ==> b[i] as int == s[i] as int
  {
    seq(|s|, i requires 0 <= i < |s| => (s[i] as int % 128) as Byte)
  }

  datatype Message =
    | HttpRequest(body: Option<Bytes>, more: Option<bool>)
    | HttpDisconnect
    | LifespanStartup
    | LifespanShutdown
    | OtherMessage

  // ---------- Reading the body ----------

  datatype Outcome = Complete(body: Bytes) | TooLarge | ClientGone

  /** The reader between messages, or decided. */
  datatype Progress = Reading(buffer: Bytes) | Decided(outcome: Outcome)

  function Chunk(m: Message): Bytes { if m.HttpRequest? && m.body.Some? then m.body.value else [] }

  predicate Last(m: Message) { m.HttpRequest? && m.more != Some(true) }

  function Step(p: Progress, m: Message): Progress {
    if p.Decided? then p
    else if m.HttpDisconnect? then Decided(ClientGone)
    else if !m.HttpRequest? then p
    else if MAX_REQUEST_BYTES < |p.buffer| + |Chunk(m)| then Decided(TooLarge)
    else if Last(m) then Decided(Complete(p.buffer + Chunk(m)))
    else Reading(p.buffer + Chunk(m))
  }

  function After(ms: seq<Message>): Progress {
    if ms == [] then Reading([]) else Step(After(ms[..|ms| - 1]), ms[|ms| - 1])
  }

  function Joined(chunks: seq<Bytes>): Bytes {
    if chunks == [] then [] else Joined(chunks[..|chunks| - 1]) + chunks[|chunks| - 1]
  }

  lemma JoinedAppend(chunks: seq<Bytes>, chunk: Bytes)
    ensures Joined(chunks + [chunk]) == Joined(chunks) + chunk
  {
    assert (chunks + [chunk])[..|chunks|] == chunks;
  }

  // ---------- What the read decides ----------

  /** The decision of a stream, if some message decides. */
  function Decision(ms: seq<Message>): Option<Outcome> {
    var p := After(ms);
    if p.Decided? then Some(p.outcome) else None
  }

  /** How many messages are taken: up to and including the deciding one. */
  function Taken(ms: seq<Message>): nat {
    if ms == [] then 0
    else
      var before := ms[..|ms| - 1];
      if After(before).Decided? then Taken(before) else |ms|
  }

  /** Once decided, later messages change nothing. */
  lemma {:induction false} DecidedStays(ms: seq<Message>, n: nat)
    requires n <= |ms| && After(ms[..n]).Decided?
    ensures After(ms) == After(ms[..n])
    ensures n == 0 || After(ms[..n - 1]).Reading? ==> Taken(ms) == n
  {
    if n == |ms| {
      assert ms[..n] == ms;
    } else {
      var before := ms[..|ms| - 1];
      assert before[..n] == ms[..n] && (n > 0 ==> before[..n - 1] == ms[..n - 1]);
      DecidedStays(before, n);
    }
  }

  lemma {:induction false} NeverDecided(ms: seq<Message>)
    requires After(ms).Reading?
    ensures Taken(ms) == |ms|
  {
    if ms != [] && After(ms[..|ms| - 1]).Decided? { assert false; }
  }

  lemma DecisionFound(ms: seq<Message>, n: nat, r: Option<Outcome>)
    requires n <= |ms|
    requires match r
             case Some(o) => 0 < n && After(ms[..n]) == Decided(o) && After(ms[..n - 1]).Reading?
             case None => n == |ms| && After(ms).Reading?
    ensures Decision(ms) == r && Taken(ms) == n
  {
    if r.Some? { DecidedStays(ms, n); } else { NeverDecided(ms); }
  }

  /** Nothing the reader holds ever passes the bound, at any point of any stream. */
  lemma {:induction false} BufferBounded(ms: seq<Message>)
    ensures match After(ms)
            case Reading(buffer) => |buffer| <= MAX_REQUEST_BYTES
            case Decided(Complete(body)) => |body| <= MAX_REQUEST_BYTES
            case _ => true
  {
    if ms != [] { BufferBounded(ms[..|ms| - 1]); }
  }

  /** The bytes of a request, whatever else is interleaved. */
  function Body(ms: seq<Message>): Bytes {
    if ms == [] then [] else Body(ms[..|ms| - 1]) + Chunk(ms[|ms| - 1])
  }

  lemma {:induction false} UndecidedHolds(ms: seq<Message>)
    requires Decision(ms) == None
    ensures After(ms) == Reading(Body(ms))
  {
    if ms != [] { UndecidedHolds(ms[..|ms| - 1]); }
  }

  /**
   What one more message decides, and the bytes it adds. Nothing is decided before the first; a
   disconnect gives up; a request that does not say more is coming, and one that says nothing about
   it, ends the body; the bound is on all bytes so far; other kinds are passed over.
   */
  lemma DecidesNext(ms: seq<Message>, m: Message)
    ensures Decision([]) == None && Body([]) == []
    ensures Body(ms + [m]) == Body(ms) + match m case HttpRequest(Some(b), _) => b case _ => []
    ensures Decision(ms) != None ==> Decision(ms + [m]) == Decision(ms)
    ensures Decision(ms) == None ==>
              Decision(ms + [m]) ==
                match m
                case HttpDisconnect => Some(ClientGone)
                case HttpRequest(_, more) =>
                  if 1_048_576 < |Body(ms + [m])| then Some(TooLarge)
                  else if more == Some(true) then None
                  else Some(Complete(Body(ms + [m])))
                case _ => None
  {
    assert (ms + [m])[..|ms|] == ms;
    if Decision(ms) == None { UndecidedHolds(ms); }
  }

  /** Requests that all say more is coming, among messages of other kinds. */
  predicate Unfinished(ms: seq<Message>) { forall m :: m in ms ==> !m.HttpDisconnect? && !Last(m) }

  /** A whole request: nothing ends it before its last message. */
  predicate WholeRequest(ms: seq<Message>) { ms != [] && Unfinished(ms[..|ms| - 1]) && Last(ms[|ms| - 1]) }

  lemma {:induction false} ReadUnfinished(ms: seq<Message>)
    requires Unfinished(ms)
    ensures After(ms) == if |Body(ms)| <= MAX_REQUEST_BYTES then Reading(Body(ms)) else Decided(TooLarge)
  {
    if ms != [] {
      assert Unfinished(ms[..|ms| - 1]);
      ReadUnfinished(ms[..|ms| - 1]);
    }
  }

  /** A whole request is decided by its bytes alone: all of them, or a refusal when they pass the bound. */
  lemma WholeRequestDecides(ms: seq<Message>, more: seq<Message>)
    requires WholeRequest(ms)
    ensures Decision(ms + more) == Some(if |Body(ms)| <= MAX_REQUEST_BYTES then Complete(Body(ms)) else TooLarge)
  {
    ReadUnfinished(ms[..|ms| - 1]);
    assert (ms + more)[..|ms|] == ms;
    DecidedStays(ms + more, |ms|);
  }

  /** Chunking does not matter: sizes, empty chunks, interleaved messages and what follows leave no trace. */
  lemma ChunkingDoesNotMatter(a: seq<Message>, afterA: seq<Message>, b: seq<Message>, afterB: seq<Message>)
    requires WholeRequest(a) && WholeRequest(b) && Body(a) == Body(b)
    ensures Decision(a + afterA) == Decision(b + afterB)
  {
    WholeRequestDecides(a, afterA);
    WholeRequestDecides(b, afterB);
  }

  // ---------- Answers ----------

  type ExceptionClass = string

  const EXCEPTION: ExceptionClass := "Exception"

  /** What a handler does; an exception is known by the classes it is an instance of. */
  datatype HandlerResult = Returned(answer: Bytes) | Raised(ancestry: set<ExceptionClass>)

  datatype Server = Server(handler: Bytes -> HandlerResult, contractError: ExceptionClass, budgetError: ExceptionClass)

  datatype Scope = Scope(kind: Option<string>, path: Option<string>, verb: Option<string>)

  datatype Sent =
    | ResponseStart(status: nat, contentLength: string)
    | ResponseBody(body: Bytes, moreBody: bool)
    | CloseSocket(code: nat)
    | StartupComplete
    | ShutdownComplete

  const PING_PATH := "/ping"
  const INVOCATIONS_PATH := "/invocations"
  const PING_BODY := "{\"status\":\"Healthy\"}"
  const INVALID_REQUEST := "{\"error\":\"INVALID_REQUEST\"}"
  const NOT_FOUND := "{\"error\":\"NOT_FOUND\"}"
  const METHOD_NOT_ALLOWED := "{\"error\":\"METHOD_NOT_ALLOWED\"}"
  const PAYLOAD_TOO_LARGE := "{\"error\":\"PAYLOAD_TOO_LARGE\"}"
  const RUNTIME_FAILURE := "{\"error\":\"RUNTIME_FAILURE\"}"
  const BUDGET_EXCEEDED := "{\"error\":\"RUNTIME_BUDGET_EXCEEDED\"}"

  function Answer(status: nat, body: Bytes): seq<Sent> {
    [ResponseStart(status, Decimal(|body|)), ResponseBody(body, false)]
  }

  function ResultSends(server: Server, r: HandlerResult): seq<Sent> {
    match r
    case Returned(answer) => Answer(200, answer)
    case Raised(ancestry) =>
      if server.budgetError in ancestry then Answer(504, Ascii(BUDGET_EXCEEDED))
      else if server.contractError in ancestry then Answer(400, Ascii(INVALID_REQUEST))
      else if EXCEPTION in ancestry then Answer(500, Ascii(RUNTIME_FAILURE))
      else []
  }

  function InvokeSends(server: Server, ms: seq<Message>): seq<Sent> {
    match Decision(ms)
    case None => []
    case Some(ClientGone) => []
    case Some(TooLarge) => Answer(413, Ascii(PAYLOAD_TOO_LARGE))
    case Some(Complete(raw)) => ResultSends(server, server.handler(raw))
  }

  predicate Invokes(scope: Scope) { scope.path == Some(INVOCATIONS_PATH) && scope.verb == Some("POST") }

  function RespondSends(server: Server, scope: Scope, ms: seq<Message>): seq<Sent> {
    if scope.path == Some(PING_PATH) then
      if scope.verb == Some("GET") then Answer(200, Ascii(PING_BODY)) else Answer(405, Ascii(METHOD_NOT_ALLOWED))
    else if scope.path != Some(INVOCATIONS_PATH) then Answer(404, Ascii(NOT_FOUND))
    else if scope.verb != Some("POST") then Answer(405, Ascii(METHOD_NOT_ALLOWED))
    else InvokeSends(server, ms)
  }

  function HandlerCalls(scope: Scope, ms: seq<Message>): seq<Bytes> {
    match Decision(ms)
    case Some(Complete(raw)) => if Invokes(scope) then [raw] else []
    case _ => []
  }

  function LifespanSends(ms: seq<Message>): seq<Sent> {
    if ms == [] then []
    else
      var n := |ms| - 1;
      LifespanSends(ms[..n]) +
      if LifespanShutdown in ms[..n] then []
      else if ms[n].LifespanStartup? then [StartupComplete]
      else if ms[n].LifespanShutdown? then [ShutdownComplete]
      else []
  }

  function FirstShutdown(ms: seq<Message>): (i: nat)
    requires LifespanShutdown in ms
    ensures i < |ms| && ms[i] == LifespanShutdown
    ensures forall j :: 0 <= j < i ==> ms[j] != LifespanShutdown
  {
    if ms[0] == LifespanShutdown then 0 else 1 + FirstShutdown(ms[1..])
  }

  /** Nothing is sent after the first shutdown. */
  lemma {:induction false} ShutdownEnds(ms: seq<Message>, n: nat)
    requires n < |ms| && ms[n] == LifespanShutdown && LifespanShutdown !in ms[..n]
    ensures LifespanSends(ms) == LifespanSends(ms[..n]) + [ShutdownComplete]
    ensures LifespanShutdown in ms && FirstShutdown(ms) == n
  {
    var last := |ms| - 1;
    assert ms[n] in ms;
    assert forall j :: 0 <= j < n ==> ms[j] == ms[..n][j] != LifespanShutdown;
    if n < last {
      assert ms[..last][..n] == ms[..n] && ms[..last][n] == ms[n];
      ShutdownEnds(ms[..last], n);
    }
  }

  function Sends(server: Server, scope: Scope, ms: seq<Message>): seq<Sent> {
    if scope.kind == Some("lifespan") then LifespanSends(ms)
    else if scope.kind == Some("http") then RespondSends(server, scope, ms)
    else [CloseSocket(1008)]
  }

  // ---------- The connection ----------

  /** The messages of one connection, taken one at a time; past the end, nothing more ever arrives. */
  class Connection {
    const messages: seq<Message>
    var next: nat
    var sends: seq<Sent>
    var handled: seq<Bytes>

    constructor (messages: seq<Message>)
      ensures this.messages == messages && next == 0 && sends == [] && handled == []
    {
      this.messages := messages;
      next, sends, handled := 0, [], [];
    }

    method Send(s: Sent)
      modifies this`sends
      ensures sends == old(sends) + [s]
    {
      sends := sends + [s];
    }

    /** Buffer the body, refusing it the moment it passes the bound; `None` while the caller says nothing more. */
    method ReadBody() returns (r: Option<Outcome>)
      requires next == 0
      modifies this`next
      ensures next <= |messages|
      ensures match r
              case Some(o) => 0 < next && After(messages[..next]) == Decided(o) && After(messages[..next - 1]).Reading?
              case None => next == |messages| && After(messages).Reading?
    {
      var chunks: seq<Bytes> := [];
      var total := 0;
      while next < |messages|
        invariant next <= |messages|
        invariant After(messages[..next]) == Reading(Joined(chunks))
        invariant total == |Joined(chunks)| <= MAX_REQUEST_BYTES
      {
        var message := messages[next];
        assert messages[..next + 1][..next] == messages[..next];
        next := next + 1;
        if message.HttpDisconnect? { return Some(ClientGone); }
        if message.HttpRequest? {
          var chunk := if message.body.Some? then message.body.value else [];
          total := total + |chunk|;
          if MAX_REQUEST_BYTES < total { return Some(TooLarge); }
          JoinedAppend(chunks, chunk);
          chunks := chunks + [chunk];
          var more := if message.more.Some? then message.more.value else false;
          if !more { return Some(Complete(Joined(chunks))); }
        }
      }
      assert messages[..next] == messages;
      r := None;
    }

    method Reply(status: nat, body: Bytes)
      modifies this`sends
      ensures sends == old(sends) + Answer(status, body)
    {
      Send(ResponseStart(status, Decimal(|body|)));
      Send(ResponseBody(body, false));
    }

    method Invoke(server: Server)
      requires next == 0
      modifies this
      ensures match Decision(messages)
              case Some(Complete(raw)) => handled == old(handled) + [raw]
              case _ => handled == old(handled)
      ensures sends == old(sends) + InvokeSends(server, messages)
      ensures next == Taken(messages)
    {
      var outcome := ReadBody();
      DecisionFound(messages, next, outcome);
      if outcome.None? || outcome.value.ClientGone? { return; }
      if outcome.value.TooLarge? {
        Reply(413, Ascii(PAYLOAD_TOO_LARGE));
        return;
      }
      var raw := outcome.value.body;
      handled := handled + [raw];
      var result := server.handler(raw);
      if result.Raised? {
        if server.budgetError in result.ancestry {
          Reply(504, Ascii(BUDGET_EXCEEDED));
        } else if server.contractError in result.ancestry {
          Reply(400, Ascii(INVALID_REQUEST));
        } else if EXCEPTION in result.ancestry {
          Reply(500, Ascii(RUNTIME_FAILURE));
        }
        return;
      }
      Reply(200, result.answer);
    }

    method Respond(server: Server, scope: Scope)
      requires next == 0
      modifies this
      ensures sends == old(sends) + RespondSends(server, scope, messages)
      ensures handled == old(handled) + HandlerCalls(scope, messages)
      ensures next == if Invokes(scope) then Taken(messages) else 0
    {
      var path := if scope.path.Some? then scope.path.value else "";
      var verb := if scope.verb.Some? then scope.verb.value else "";
      if path == PING_PATH {
        if verb != "GET" {
          Reply(405, Ascii(METHOD_NOT_ALLOWED));
          return;
        }
        Reply(200, Ascii(PING_BODY));
        return;
      }
      if path != INVOCATIONS_PATH {
        Reply(404, Ascii(NOT_FOUND));
        return;
      }
      if verb != "POST" {
        Reply(405, Ascii(METHOD_NOT_ALLOWED));
        return;
      }
      Invoke(server);
    }

    /** Startup and shutdown are acknowledged; anything else is passed over. */
    method RunLifespan()
      requires next == 0
      modifies this`next, this`sends
      ensures sends == old(sends) + LifespanSends(messages)
      ensures next <= |messages|
      ensures LifespanShutdown in messages[..next] ==> next == 1 + FirstShutdown(messages)
      ensures LifespanShutdown !in messages[..next] ==> next == |messages|
    {
      while next < |messages|
        invariant next <= |messages| && LifespanShutdown !in messages[..next]
        invariant sends == old(sends) + LifespanSends(messages[..next])
      {
        var message := messages[next];
        assert messages[..next + 1][..next] == messages[..next];
        if message.LifespanShutdown? { ShutdownEnds(messages, next); }
        next := next + 1;
        if message.LifespanStartup? {
          Send(StartupComplete);
        } else if message.LifespanShutdown? {
          Send(ShutdownComplete);
          return;
        }
      }
      assert messages[..next] == messages;
    }

    method Serve(server: Server, scope: Scope)
      requires next == 0
      modifies this
      ensures sends == old(sends) + Sends(server, scope, messages)
      ensures handled == old(handled) + if scope.kind == Some("http") then HandlerCalls(scope, messages) else []
    {
      if scope.kind == Some("lifespan") {
        RunLifespan();
        return;
      }
      if scope.kind != Some("http") {
        Send(CloseSocket(1008));
        return;
      }
      Respond(server, scope);
    }
  }

  // ---------- What a caller is told ----------

  predicate Escapes(server: Server, r: HandlerResult) {
    r.Raised? && server.budgetError !in r.ancestry && server.contractError !in r.ancestry && EXCEPTION !in r.ancestry
  }

  /**
   Exactly one answer: a start carrying the length of the body that follows, or silence. Silence is
   kept exactly when the request body never ends, the caller has gone, or the handler raises
   something that is not an `Exception`, which then leaves the server as it came.
   */
  lemma ExactlyOneAnswer(server: Server, scope: Scope, ms: seq<Message>)
    ensures var sent := RespondSends(server, scope, ms);
            || sent == []
            || (exists status, body :: sent == Answer(status, body) && ParseDecimal(Decimal(|body|)) == |body|)
    ensures RespondSends(server, scope, ms) == [] <==>
            && Invokes(scope)
            && match Decision(ms)
               case None => true
               case Some(ClientGone) => true
               case Some(TooLarge) => false
               case Some(Complete(raw)) => Escapes(server, server.handler(raw))
  {
    var sent := RespondSends(server, scope, ms);
    if sent != [] {
      var status, body := sent[0].status, sent[1].body;
      DecimalRoundTrip(|body|);
      assert sent == Answer(status, body);
    }
  }

  /** The handler sees one complete body within the bound, or nothing. */
  lemma HandlerSeesWholeBodies(scope: Scope, ms: seq<Message>)
    ensures |HandlerCalls(scope, ms)| <= 1
    ensures HandlerCalls(scope, ms) != [] ==>
              Invokes(scope) && |HandlerCalls(scope, ms)[0]| <= MAX_REQUEST_BYTES
    ensures WholeRequest(ms) && |Body(ms)| <= MAX_REQUEST_BYTES && Invokes(scope) ==> HandlerCalls(scope, ms) == [Body(ms)]
  {
    BufferBounded(ms);
    if WholeRequest(ms) {
      WholeRequestDecides(ms, []);
      assert ms + [] == ms;
    }
  }

  /** One answer of this status whose body spells this text, its declared length included. */
  ghost predicate Says(sent: seq<Sent>, status: nat, text: string) {
    && |sent| == 2 && sent[0].ResponseStart? && sent[0].status == status
    && sent[1].ResponseBody? && !sent[1].moreBody && sent[0].contentLength == Decimal(|sent[1].body|)
    && |sent[1].body| == |text| && forall i :: 0 <= i < |text| ==> sent[1].body[i] as int == text[i] as int
  }

  lemma AsciiSays(status: nat, text: string)
    requires forall i :: 0 <= i < |text| ==> text[i] as int < 128
    ensures Says(Answer(status, Ascii(text)), status, text)
  {
  }

  lemma RoutesSay()
    ensures Says(Answer(200, Ascii(PING_BODY)), 200, "{\"status\":\"Healthy\"}")
    ensures Says(Answer(404, Ascii(NOT_FOUND)), 404, "{\"error\":\"NOT_FOUND\"}")
    ensures Says(Answer(405, Ascii(METHOD_NOT_ALLOWED)), 405, "{\"error\":\"METHOD_NOT_ALLOWED\"}")
  {
    hide Says;
    AsciiSays(200, PING_BODY);
    AsciiSays(404, NOT_FOUND);
    AsciiSays(405, METHOD_NOT_ALLOWED);
  }

  lemma CallerFailuresSay()
    ensures Says(Answer(400, Ascii(INVALID_REQUEST)), 400, "{\"error\":\"INVALID_REQUEST\"}")
    ensures Says(Answer(413, Ascii(PAYLOAD_TOO_LARGE)), 413, "{\"error\":\"PAYLOAD_TOO_LARGE\"}")
  {
    hide Says;
    AsciiSays(400, INVALID_REQUEST);
    AsciiSays(413, PAYLOAD_TOO_LARGE);
  }

  lemma RuntimeFailuresSay()
    ensures Says(Answer(500, Ascii(RUNTIME_FAILURE)), 500, "{\"error\":\"RUNTIME_FAILURE\"}")
    ensures Says(Answer(504, Ascii(BUDGET_EXCEEDED)), 504, "{\"error\":\"RUNTIME_BUDGET_EXCEEDED\"}")
  {
    hide Says;
    AsciiSays(500, RUNTIME_FAILURE);
    AsciiSays(504, BUDGET_EXCEEDED);
  }

  /** What every scope but an accepted invocation is told, whatever the caller sends. */
  lemma RoutesExactly(server: Server, scope: Scope, ms: seq<Message>)
    ensures scope.kind == Some("lifespan") ==> Sends(server, scope, ms) == LifespanSends(ms)
    ensures scope.kind != Some("lifespan") && scope.kind != Some("http") ==> Sends(server, scope, ms) == [CloseSocket(1008)]
    ensures scope.kind == Some("http") ==>
              var sent := Sends(server, scope, ms);
              && (scope.path == Some("/ping") && scope.verb == Some("GET") ==> Says(sent, 200, "{\"status\":\"Healthy\"}"))
              && (scope.path == Some("/ping") && scope.verb != Some("GET") ==>
                    Says(sent, 405, "{\"error\":\"METHOD_NOT_ALLOWED\"}"))
              && (scope.path != Some("/ping") && scope.path != Some("/invocations") ==>
                    Says(sent, 404, "{\"error\":\"NOT_FOUND\"}"))
              && (scope.path == Some("/invocations") && scope.verb != Some("POST") ==>
                    Says(sent, 405, "{\"error\":\"METHOD_NOT_ALLOWED\"}"))
    ensures HandlerCalls(scope, ms) != [] ==> scope.path == Some("/invocations") && scope.verb == Some("POST")
  {
    RoutesSay();
    hide Says, Ascii, Answer;
    assert "/ping" != "/invocations" by { assert |"/ping"| == 5; }
  }

  /**
   What the caller is told, exactly, for a whole request and whatever follows it. An exhausted budget
   wins over a broken contract, every other `Exception` is one 500, and only what is no `Exception`
   goes unanswered.
   */
  lemma AnswersWholeRequests(server: Server, scope: Scope, ms: seq<Message>, more: seq<Message>)
    requires scope.path == Some("/invocations") && scope.verb == Some("POST") && WholeRequest(ms)
    ensures var sent, r := RespondSends(server, scope, ms + more), server.handler(Body(ms));
            if 1_048_576 < |Body(ms)| then Says(sent, 413, "{\"error\":\"PAYLOAD_TOO_LARGE\"}")
            else if r.Returned? then
              sent == [ResponseStart(200, Decimal(|r.answer|)), ResponseBody(r.answer, false)]
            else if server.budgetError in r.ancestry then Says(sent, 504, "{\"error\":\"RUNTIME_BUDGET_EXCEEDED\"}")
            else if server.contractError in r.ancestry then Says(sent, 400, "{\"error\":\"INVALID_REQUEST\"}")
            else if "Exception" in r.ancestry then Says(sent, 500, "{\"error\":\"RUNTIME_FAILURE\"}")
            else sent == []
  {
    WholeRequestDecides(ms, more);
    CallerFailuresSay();
    RuntimeFailuresSay();
    hide Says, Ascii;
    assert "/ping" != "/invocations" by { assert |"/ping"| == 5; }
  }

  /** How many times startup is announced. */
  function Startups(ms: seq<Message>): nat {
    if ms == [] then 0 else Startups(ms[..|ms| - 1]) + if ms[|ms| - 1] == LifespanStartup then 1 else 0
  }

  /** Before a shutdown every startup is acknowledged once and nothing else is said; the first shutdown ends it. */
  lemma {:induction false} LifespanAcknowledges(ms: seq<Message>, more: seq<Message>)
    requires LifespanShutdown !in ms
    ensures LifespanSends(ms) == seq(Startups(ms), _ => StartupComplete)
    ensures LifespanSends(ms + [LifespanShutdown] + more) == seq(Startups(ms), _ => StartupComplete) + [ShutdownComplete]
  {
    if ms != [] { LifespanAcknowledges(ms[..|ms| - 1], []); }
    var all := ms + [LifespanShutdown] + more;
    assert all[..|ms|] == ms && all[|ms|] == LifespanShutdown;
    ShutdownEnds(all, |ms|);
  }
}
