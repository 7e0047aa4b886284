/** The client's retry loop talking to the mock server: one theorem about both ends. */
module ClosedLoop {
  import opened Wrappers
  import opened Strings
  import opened Exceptions
  import opened Retry
  import opened Request
  import opened Handlers
  import opened Engine
  import opened RunProperties
  import opened Matching
  import opened Headers
  import MockServer

  /** A server in some state, and what it receives of a request sent with a method, a URL and keyword arguments. */
  datatype Server<!J> = Server(state: MockServer.ServerState, routes: seq<MockServer.Route<J>>, parse: Body -> Parse<J>,
                               deliver: (string, string, Kwargs) -> Incoming)

  /** The server after everything that a trace of the call sends. */
  function Received<J(==)>(v: Server<J>, c: Call, t: seq<Step>): (s: MockServer.ServerState)
    requires MockServer.SequencesFilled(v.state)
    ensures MockServer.SequencesFilled(s)
  {
    if t == [] then v.state
    else
      var before := Received(v, c, t[..|t| - 1]);
      match t[|t| - 1]
      case Send(_, kwargs, _) => MockServer.Serve(before, v.routes, v.parse, v.deliver(c.job.verb, c.job.url, kwargs)).0
      case _ => before
  }

  /** The server and the request that the call keeps sending to it. */
  function ExchangeOf<J(==)>(v: Server<J>, c: Call): Exchange<J> {
    Exchange(v.state, v.routes, v.parse, v.deliver(c.job.verb, c.job.url, SentKwargsAt(c, 1)))
  }

  /** A server in some state and the request the client keeps sending to it. */
  datatype Exchange<!J> = Exchange(state: MockServer.ServerState, routes: seq<MockServer.Route<J>>,
                                   parse: Body -> Parse<J>, incoming: Incoming)

  /** The server after it has received the request n times. */
  function ServerAfter<J(==)>(x: Exchange<J>, n: nat): (s: MockServer.ServerState)
    requires MockServer.SequencesFilled(x.state)
    ensures MockServer.SequencesFilled(s)
  {
    if n == 0 then x.state else MockServer.Serve(ServerAfter(x, n - 1), x.routes, x.parse, x.incoming).0
  }

  /** Its reply to the n-th sending, counting from 1. */
  function ReplyTo<J(==)>(x: Exchange<J>, n: nat): MockServer.Served
    requires MockServer.SequencesFilled(x.state) && n >= 1
  {
    MockServer.Serve(ServerAfter(x, n - 1), x.routes, x.parse, x.incoming).1
  }

  /** What a reply looks like to the client. */
  function WireOf(served: MockServer.Served, k: nat): Wire {
    match served
    case Sent(Answered(status, retryAfter)) => Answers(HttpResponse(status, retryAfter, k), None)
    case Sent(Disconnects) =>
      Fails(Exn(k, {ServerDisconnectedError, ClientConnectionError, Exception}, None, None, false, false), true)
    case NotFound => Answers(HttpResponse(404, None, k), None)
    case ServerError => Answers(HttpResponse(500, None, k), None)
  }

  /** The call with its wire connected to the server. */
  function Connected<J(==)>(c: Call, x: Exchange<J>): Call
    requires MockServer.SequencesFilled(x.state)
  {
    c.(world := c.world.(wire := (k: nat) => if k >= 1 then WireOf(ReplyTo(x, k), k) else Fails(Own(RuntimeError), false)))
  }

  /** The request reaches a route whose responses are a fresh sequence. */
  ghost predicate Reaches<J>(x: Exchange<J>, name: string, o: MockServer.SequenceResponse) {
    MockServer.SequencesFilled(x.state)
    && (var choice := MockServer.FlatMatch(x.routes, x.parse, x.incoming);
        choice.Chosen? && choice.route.handlerName == name)
    && name in x.state.handlers && x.state.handlers[name] == MockServer.Sequenced(o)
    && MockServer.Position(x.state, o) == 0
  }

  function Copies(r: MockServer.Recorded, n: nat): seq<MockServer.Recorded> {
    seq(n, i => r)
  }

  /** What the client is sent for sending number n, counting from 1: the sequence's reply, or the error of an exhausted
      one. */
  function NthServed(o: MockServer.SequenceResponse, n: nat): MockServer.Served
    requires o.responses != [] && n >= 1
  {
    match MockServer.NthReply(o.responses, o.mode, n - 1)
    case Some(reply) => MockServer.Sent(reply)
    case None => MockServer.ServerError
  }

  /** The server's side: n requests are recorded n times, and answered as the sequence's mode says, also past its end. */
  lemma {:induction false} ServerSide<J>(x: Exchange<J>, name: string, o: MockServer.SequenceResponse, n: nat)
    requires Reaches(x, name, o)
    ensures o.responses != []
    ensures var s := ServerAfter(x, n);
            && MockServer.Calls(s, name)
               == MockServer.Calls(x.state, name) + Copies(MockServer.Recorded(x.incoming, name), n)
            && |s.history| == |x.state.history| + n
            && s.handlers == x.state.handlers
            && MockServer.Position(s, o) == MockServer.IndexAfter(o.responses, o.mode, n)
    ensures n >= 1 ==> ReplyTo(x, n) == NthServed(o, n)
  {
    hide MockServer.Serve, MockServer.Calls, MockServer.Position, MockServer.FlatMatch, MockServer.Picked;
    var record := MockServer.Recorded(x.incoming, name);
    if n > 0 {
      ServerSide(x, name, o, n - 1);
      OneServe(ServerAfter(x, n - 1), x, name, o);
      MockServer.PickingIsNth(o.responses, o.mode, n - 1);
      assert Copies(record, n) == Copies(record, n - 1) + [record];
    } else {
      assert MockServer.Calls(x.state, name) + Copies(record, 0) == MockServer.Calls(x.state, name);
    }
  }

  /** What a server does with a request that it cannot serve, however often it is sent: without a route it answers 404 and
      records nothing; when the route's handler has no response it answers 500 and records each sending. */
  lemma {:induction false} UnservedRequests<J>(x: Exchange<J>, n: nat)
    requires MockServer.SequencesFilled(x.state)
    ensures var choice := MockServer.FlatMatch(x.routes, x.parse, x.incoming);
            && (choice.NoMatch? ==>
                  && ServerAfter(x, n) == x.state
                  && (n >= 1 ==> WireOf(ReplyTo(x, n), n) == Answers(HttpResponse(404, None, n), None)))
            && (choice.Chosen? && choice.route.handlerName !in x.state.handlers ==>
                  && |ServerAfter(x, n).history| == |x.state.history| + n && ServerAfter(x, n).handlers == x.state.handlers
                  && (n >= 1 ==> WireOf(ReplyTo(x, n), n) == Answers(HttpResponse(500, None, n), None)))
  {
    hide MockServer.Serve, MockServer.FlatMatch, MockServer.Calls;
    if n > 0 {
      UnservedRequests(x, n - 1);
      MockServer.RequestIsRecorded(ServerAfter(x, n - 1), x.routes, x.parse, x.incoming);
    }
  }

  lemma OneServe<J>(s: MockServer.ServerState, x: Exchange<J>, name: string, o: MockServer.SequenceResponse)
    requires Reaches(x, name, o) && MockServer.SequencesFilled(s) && s.handlers == x.state.handlers
    ensures o.responses != []
    ensures var (after, served) := MockServer.Serve(s, x.routes, x.parse, x.incoming);
            var (reply, index) := MockServer.Picked(o.responses, o.mode, MockServer.Position(s, o));
            && MockServer.Calls(after, name) == MockServer.Calls(s, name) + [MockServer.Recorded(x.incoming, name)]
            && |after.history| == |s.history| + 1 && after.handlers == s.handlers
            && MockServer.Position(after, o) == index
            && served == if reply.Some? then MockServer.Sent(reply.value) else MockServer.ServerError
  {
    hide MockServer.Picked;
    MockServer.GroupedIsFlat(x.routes, x.parse, x.incoming);
    MockServer.RequestIsRecorded(s, x.routes, x.parse, x.incoming);
  }

  lemma {:induction false} FirstLastIsAttempts(c: Call, k: nat, n: nat)
    requires ValidCall(c) && 1 <= k <= n <= c.policy.maxAttempts
    requires RoundAt(c, n).Last? && forall i :: k <= i < n ==> RoundAt(c, i).More?
    ensures LastAttempt(c, k) == n
    decreases n - k
  {
    hide RoundAt;
    if k < n { FirstLastIsAttempts(c, k + 1, n); }
  }

  function Min(a: int, b: int): int {
    if a <= b then a else b
  }

  /** The response to the n-th sending as the client reads it, if there is one. */
  function Visible(o: MockServer.SequenceResponse, n: nat): Option<HttpResponse>
    requires o.responses != [] && n >= 1
  {
    match WireOf(NthServed(o, n), n)
    case Answers(response, _) => Some(response)
    case Fails(_, _) => None
  }

  /** The first `retryable` replies within the budget have statuses that the policy retries, and the next one, if the
      budget reaches it, a status that it does not. */
  ghost predicate Script(c: Call, o: MockServer.SequenceResponse, retryable: nat) {
    && o.responses != []
    && (forall k {:trigger Visible(o, k)} :: 1 <= k <= retryable && k <= c.policy.maxAttempts ==>
          Visible(o, k).Some? && Visible(o, k).value.status in c.policy.statuses)
    && (retryable < c.policy.maxAttempts ==>
          Visible(o, retryable + 1).Some? && Visible(o, retryable + 1).value.status !in c.policy.statuses)
  }

  /** A request that may be repeated and whose sleeps are not interrupted. */
  ghost predicate Persistent(c: Call) {
    && ValidCall(c) && Upper(c.job.verb) in c.policy.methods && IsReplayable(c.job.kwargs)
    && forall k :: c.world.asleep(k).None?
  }

  /** The response to attempt k of the connected call. */
  lemma WireIs<J>(c: Call, x: Exchange<J>, name: string, o: MockServer.SequenceResponse, k: nat)
    requires Reaches(x, name, o) && 1 <= k
    ensures o.responses != [] && Connected(c, x).world.wire(k) == WireOf(NthServed(o, k), k)
  {
    ServerSide(x, name, o, k);
  }

  /** Attempt k is answered and released without an error. */
  predicate IsAnswered(d: Call, k: nat) {
    d.world.wire(k).Answers? && d.world.wire(k).closeError.None?
  }

  /** Attempt k gets a response the policy retries, and a delay for the next one is known. */
  ghost predicate AsksAgain(d: Call, k: nat)
    requires 1 <= k
  {
    && IsAnswered(d, k) && d.world.wire(k).response.status in d.policy.statuses
    && GetDelay(d.policy, StatusContext(ContextAt(d, k), d.world.wire(k).response.status),
                d.world.wire(k).response.retryAfter, SurroundingsAt(d, k, SentAt(d, k))).Ok?
  }

  lemma RetryableRound(d: Call, k: nat)
    requires Persistent(d) && 1 <= k < d.policy.maxAttempts && AsksAgain(d, k)
    ensures RoundAt(d, k).More? && HandlerCalls(ModeAt(d, k), d.job.handlers, d.world, k) == []
  {
    hide SentAt, GetDelay, Attempt;
    AttemptOutcome(d, k);
    assert d.world.asleep(k).None?;
  }

  /** What handling a response gives, unless it raises an exception that the policy retries. */
  ghost predicate Settles(d: Call, response: HttpResponse) {
    var out := Handled(HandlersUsed(d.job, d.sink), response, response.serial).outcome;
    out.Raised? ==>
      || !Catchable(out.thrown) || IsInstance(Unwrap(out.thrown), CancelledError)
      || !IsInstanceOfAny(Unwrap(out.thrown), d.policy.exceptions)
  }

  /** Handling the response of attempt n: no retry is possible or none is wanted. */
  ghost predicate Final(d: Call, n: nat) {
    && IsAnswered(d, n) && d.world.wire(n).response.serial == n && Settles(d, d.world.wire(n).response)
    && (n < d.policy.maxAttempts ==> d.world.wire(n).response.status !in d.policy.statuses)
  }

  lemma FinalRound(d: Call, n: nat)
    requires Persistent(d) && 1 <= n <= d.policy.maxAttempts && Final(d, n)
    ensures RoundAt(d, n) == Last(RoundAt(d, n).steps, Handled(HandlersUsed(d.job, d.sink), d.world.wire(n).response, n).outcome)
    ensures !JudgedAt(d, n).verdict.Again? && JudgedAt(d, n).notices == []
    ensures var response := d.world.wire(n).response;
            && HandlerCalls(ModeAt(d, n), d.job.handlers, d.world, n) == Handled(HandlersUsed(d.job, d.sink), response, n).steps
            && StatusNotices(ModeAt(d, n), d.world, n)
               == (if response.status in d.policy.statuses
                   then [Event(RetryEvent(Exhausted, StatusContext(ContextAt(d, n), response.status), 0.0, AttemptsExhausted))]
                   else [])
  {
    hide SentAt, GetDelay, Attempt, IsInstanceOfAny;
    AttemptOutcome(d, n);
  }

  lemma {:induction false} NoHandlersBefore(d: Call, n: nat)
    requires forall i :: 1 <= i <= n ==> HandlerCalls(ModeAt(d, i), d.job.handlers, d.world, i) == []
    ensures Pick(Rounds(d, n), HandleStep) == []
  {
    hide RoundAt, Pick, HandlerCalls, SentAt;
    PickNothing(HandleStep);
    if n > 0 {
      NoHandlersBefore(d, n - 1);
      PickRound(d, n, HandleStep);
      PickConcat(Rounds(d, n - 1), RoundAt(d, n).steps, HandleStep);
      NoAftermathHandles(d, n);
    }
  }

  lemma NoAftermathHandles(d: Call, n: nat)
    requires 1 <= n
    ensures Aftermath(d, n, HandleStep) == []
  {
    hide JudgedAt;
  }

  /** A run of n rounds, the first n - 1 of which are retried and call no handler. */
  lemma RunOf(d: Call, n: nat)
    requires Persistent(d) && 1 <= n <= d.policy.maxAttempts && Final(d, n)
    requires forall k :: 1 <= k < n ==> AsksAgain(d, k)
    ensures var t, handled := Run(d).steps, Handled(HandlersUsed(d.job, d.sink), d.world.wire(n).response, n);
            && |Pick(t, SendStep)| == n
            && |Pick(t, SleepStep)| == n - 1
            && |Pick(t, EventStep)| == n - 1 + |StatusNotices(ModeAt(d, n), d.world, n)|
            && Pick(t, EventStep)[n - 1..] == StatusNotices(ModeAt(d, n), d.world, n)
            && Pick(t, HandleStep) == handled.steps
            && Run(d).outcome == handled.outcome
  {
    hide RoundAt, Pick, Run, SentAt, JudgedAt, HandlerCalls, StatusNotices, Handled, Persistent, AsksAgain, Settles;
    RetriedRounds(d, n);
    FinalRound(d, n);
    FirstLastIsAttempts(d, 1, n);
    RunIsItsRounds(d);
    SendsAreTheAttempts(d);
    EventsAndSleeps(d);
    HandlersOfRun(d, n);
    assert [] + StatusNotices(ModeAt(d, n), d.world, n) == StatusNotices(ModeAt(d, n), d.world, n);
  }

  lemma RetriedRounds(d: Call, n: nat)
    requires Persistent(d) && 1 <= n <= d.policy.maxAttempts
    requires forall k :: 1 <= k < n ==> AsksAgain(d, k)
    ensures ValidCall(d)
    ensures forall k :: 1 <= k < n ==>
              RoundAt(d, k).More? && HandlerCalls(ModeAt(d, k), d.job.handlers, d.world, k) == []
  {
    hide RoundAt, SentAt, HandlerCalls, AsksAgain;
    forall k | 1 <= k < n
      ensures RoundAt(d, k).More? && HandlerCalls(ModeAt(d, k), d.job.handlers, d.world, k) == []
    {
      RetryableRound(d, k);
    }
  }

  /** When no earlier round calls a handler, the calls are those of the last. */
  lemma HandlersOfRun(d: Call, n: nat)
    requires n >= 1
    requires forall k :: 1 <= k < n ==> HandlerCalls(ModeAt(d, k), d.job.handlers, d.world, k) == []
    ensures Pick(Rounds(d, n), HandleStep) == HandlerCalls(ModeAt(d, n), d.job.handlers, d.world, n)
  {
    hide RoundAt, Pick, Run, SentAt, JudgedAt, HandlerCalls, StatusNotices, GetDelay;
    NoHandlersBefore(d, n - 1);
    PickRound(d, n, HandleStep);
    NoAftermathHandles(d, n);
    PickConcat(Rounds(d, n - 1), RoundAt(d, n).steps, HandleStep);
  }

  /** Every Retry-After that the run comes to wait for fits. */
  ghost predicate AllFit(p: RetryPolicy, o: MockServer.SequenceResponse, n: nat)
    requires o.responses != []
  {
    forall k {:trigger Visible(o, k)} :: 1 <= k < n && Visible(o, k).Some? ==>
      RetryAfterFits(p, Visible(o, k).value.retryAfter)
  }

  /** Closed loop. When the server, in any mode of its sequence, answers `retryable` retryable statuses and then another
      one, a repeatable request with a budget of m attempts leaves exactly min(retryable + 1, m) recorded calls; the
      client schedules min(retryable, m - 1) retries, reports `exhausted` once iff the budget does not reach the other
      status, and handles exactly the last response, with whose outcome the run ends. */
  lemma ClientServer<J>(c: Call, v: Server<J>, x: Exchange<J>, d: Call, name: string, o: MockServer.SequenceResponse,
                        retryable: nat, n: nat)
    requires x == ExchangeOf(v, c) && Reaches(x, name, o) && Script(c, o, retryable) && n == Min(retryable + 1, c.policy.maxAttempts)
    requires Persistent(c) && SteadyBackoff(c) && AllFit(c.policy, o, n)
    requires Visible(o, n).Some? && Settles(c, Visible(o, n).value)
    requires d == Connected(c, x)
    ensures var t, m, handled := Run(d).steps, c.policy.maxAttempts, Handled(HandlersUsed(c.job, c.sink), Visible(o, n).value, n);
            var events := Pick(t, EventStep);
            && |Pick(t, SendStep)| == n
            && MockServer.Calls(Received(v, d, t), name)
               == MockServer.Calls(x.state, name) + Copies(MockServer.Recorded(x.incoming, name), n)
            && |Pick(t, SleepStep)| == Min(retryable, m - 1)
            && |events| == Min(retryable, m - 1) + (if retryable >= m then 1 else 0)
            && (EndsExhausted(events) <==> retryable >= m)
            && Pick(t, HandleStep) == handled.steps
            && (FindHandler(c.job.handlers, Visible(o, n).value.status).Some? ==>
                  Pick(t, HandleStep) == [Handle(n, Visible(o, n).value.status)])
            && Run(d).outcome == handled.outcome
  {
    hide RoundAt, Pick, Run, SentAt, JudgedAt, Connected, GetDelay, HandlerCalls, Handled, WireOf, NthServed, Received;
    hide Script, SteadyBackoff, AllFit, Settles, Visible, Final, AsksAgain, ServerAfter, IsReplayable;
    var m := c.policy.maxAttempts;
    ScriptStatus(c, o, retryable, n);
    ConnectedKeeps(c, x);
    ServerSide(x, name, o, n);
    LoopScript(c, x, d, name, o, retryable, n);
    RunOf(d, n);
    ServerFollowsTrace(c, v, d, Run(d).steps);
    FinalRound(d, n);
    HandledSteps(HandlersUsed(c.job, c.sink), Visible(o, n).value, n);
    EventGrammar(d);
    var events := Pick(Run(d).steps, EventStep);
    if retryable >= m {
      assert events[n - 1..][0] == events[n - 1];
    }
  }

  lemma ScriptStatus(c: Call, o: MockServer.SequenceResponse, retryable: nat, n: nat)
    requires Script(c, o, retryable) && ValidCall(c) && n == Min(retryable + 1, c.policy.maxAttempts)
    ensures o.responses != [] && n >= 1 && Visible(o, n).Some?
    ensures Visible(o, n).value.status in c.policy.statuses <==> retryable >= c.policy.maxAttempts
  {
  }

  lemma {:induction false} IsPicked(t: seq<Step>, s: Step)
    requires s in t
    ensures s in Pick(t, KindOfStep(s))
  {
    if t[0] != s { IsPicked(t[1..], s); }
  }

  lemma AllSendsAlike(c: Call, s: Step)
    requires ValidCall(c) && s in Run(c).steps && s.Send?
    ensures s.kwargs == SentKwargsAt(c, 1)
  {
    hide Run, Pick, SentAt, SentKwargsAt;
    SendsAreTheAttempts(c);
    IsPicked(Run(c).steps, s);
    var sends := Pick(Run(c).steps, SendStep);
    var i :| 0 <= i < |sends| && sends[i] == s;
  }

  lemma {:induction false} ReceivedIsServerAfter<J>(v: Server<J>, c: Call, x: Exchange<J>, t: seq<Step>)
    requires MockServer.SequencesFilled(v.state) && x == ExchangeOf(v, c)
    requires forall s :: s in t && s.Send? ==> s.kwargs == SentKwargsAt(c, 1)
    ensures Received(v, c, t) == ServerAfter(x, |Pick(t, SendStep)|)
  {
    hide Pick, SentKwargsAt, MockServer.Serve, MockServer.SequencesFilled;
    PickNothing(SendStep);
    if t != [] {
      var rest, last := t[..|t| - 1], t[|t| - 1];
      ReceivedIsServerAfter(v, c, x, rest);
      assert t == rest + [last] && last in t;
      PickConcat(rest, [last], SendStep);
      PickOne(last, SendStep);
    }
  }

  /** The two ends agree: at every point of the connected call's run the server is in the state that what was sent so far
      has led to. So attempt k meets the reply of the server as the earlier attempts left it. */
  lemma ServerFollowsTrace<J>(c: Call, v: Server<J>, d: Call, t: seq<Step>)
    requires MockServer.SequencesFilled(v.state) && d == Connected(c, ExchangeOf(v, c)) && ValidCall(c)
    requires ValidCall(d) && t <= Run(d).steps
    ensures Received(v, d, t) == ServerAfter(ExchangeOf(v, c), |Pick(t, SendStep)|)
    ensures t < Run(d).steps && Run(d).steps[|t|].Send? ==>
              d.world.wire(|Pick(t, SendStep)| + 1)
              == WireOf(MockServer.Serve(Received(v, d, t), v.routes, v.parse, ExchangeOf(v, c).incoming).1,
                        |Pick(t, SendStep)| + 1)
  {
    hide Run, Pick, SentKwargsAt, MockServer.Serve, MockServer.SequencesFilled, WireOf;
    ConnectedKeeps(c, ExchangeOf(v, c));
    SameKwargs(c, d);
    forall s | s in t && s.Send? ensures s.kwargs == SentKwargsAt(d, 1) {
      assert s in Run(d).steps;
      AllSendsAlike(d, s);
    }
    ReceivedIsServerAfter(v, d, ExchangeOf(v, d), t);
  }

  lemma SameKwargs(c: Call, d: Call)
    requires d.job == c.job && d.sink == c.sink
    ensures SentKwargsAt(d, 1) == SentKwargsAt(c, 1)
  {
  }

  /** The replies make the first n - 1 attempts ask for another, and attempt n the last. */
  lemma LoopScript<J>(c: Call, x: Exchange<J>, d: Call, name: string, o: MockServer.SequenceResponse, retryable: nat,
                      n: nat)
    requires Reaches(x, name, o) && Script(c, o, retryable) && n == Min(retryable + 1, c.policy.maxAttempts)
    requires Persistent(c) && SteadyBackoff(c) && AllFit(c.policy, o, n)
    requires Visible(o, n).Some? && Settles(c, Visible(o, n).value)
    requires d == Connected(c, x)
    ensures Persistent(d) && Final(d, n) && d.world.wire(n).response == Visible(o, n).value
    ensures forall k :: 1 <= k < n ==> AsksAgain(d, k)
  {
    hide SentAt, Connected, GetDelay, Handled, WireOf, NthServed, RetryAfterFits, IsReplayable;
    ConnectedKeeps(c, x);
    forall k | 1 <= k <= n
      ensures Visible(o, k).Some? && d.world.wire(k) == Answers(Visible(o, k).value, None)
      ensures Visible(o, k).value.serial == k
    {
      WireIs(c, x, name, o, k);
      VisibleIsWire(o, k);
    }
    forall k | 1 <= k < n ensures AsksAgain(d, k) {
      var response := Visible(o, k).value;
      DelayIsKnownIff(d, StatusContext(ContextAt(d, k), response.status), response.retryAfter, k, SentAt(d, k));
    }
  }

  lemma HandledSteps(handlers: HandlerMap, response: HttpResponse, k: nat)
    ensures Handled(handlers, response, k).steps
         == if FindHandler(handlers, response.status).Some? then [Handle(k, response.status)] else []
  {
  }

  lemma VisibleIsWire(o: MockServer.SequenceResponse, n: nat)
    requires o.responses != [] && n >= 1 && Visible(o, n).Some?
    ensures WireOf(NthServed(o, n), n) == Answers(Visible(o, n).value, None) && Visible(o, n).value.serial == n
  {
  }

  ghost predicate EndsExhausted(events: seq<Step>) {
    events != [] && events[|events| - 1].Event? && events[|events| - 1].event.kind == Exhausted
  }

  /** The connection changes what comes over the wire and nothing else. */
  lemma ConnectedKeeps<J>(c: Call, x: Exchange<J>)
    requires MockServer.SequencesFilled(x.state)
    ensures Connected(c, x) == c.(world := c.world.(wire := Connected(c, x).world.wire))
  {
  }

  // ---- an instance -------------------------------------------------------------------------------------------------

  /** RetryPolicy() as it comes: three attempts, the default statuses, exceptions, methods and backoff, and Retry-After
      respected. */
  const DEFAULT_POLICY := RetryPolicy(
    3, {408, 425, 429, 500, 502, 503, 504}, [ClientConnectionError, ClientPayloadError, TimeoutError],
    {"GET", "HEAD", "OPTIONS", "TRACE", "PUT", "DELETE"}, FullJitter, true)

  function PlainGet(handler: Handler): Job {
    Job("GET", "/x", "client", None, map[Status(200) := handler],
        Kwargs(NotGiven, NotGiven, ProxyNotGiven, None, None, [], None, None))
  }

  function OneRoute<J(==)>(o: MockServer.SequenceResponse, parse: Body -> Parse<J>): Server<J> {
    Server(MockServer.ServerState([], map[], map["h" := MockServer.Sequenced(o)], map[]),
           [MockServer.Route("GET", "/x", "h", None)], parse,
           (verb: string, url: string, kwargs: Kwargs) => Incoming(verb, url, Given(kwargs.headers), [], []))
  }

  lemma TwoSeconds()
    ensures Strip("2") == "2" && AllDigits("2") && DigitsValue("2") == 2
    ensures Upper("GET") == "GET"
  {
    assert "2"[..0] == "";
    assert "2"[0] == '2' && DigitsValue("2"[..0]) == 0;
  }

  lemma InstanceReplies(o: MockServer.SequenceResponse)
    requires o.responses == [MockServer.Answered(503, Some("2")), MockServer.Answered(200, None)]
    ensures Visible(o, 1) == Some(HttpResponse(503, Some("2"), 1))
    ensures Visible(o, 2) == Some(HttpResponse(200, None, 2))
    ensures AllFit(DEFAULT_POLICY, o, 2)
  {
    TwoSeconds();
    forall k | 1 <= k < 2 && Visible(o, k).Some? ensures RetryAfterFits(DEFAULT_POLICY, Visible(o, k).value.retryAfter) {
      assert k == 1;
    }
  }

  lemma InstanceReaches<J>(parse: Body -> Parse<J>, o: MockServer.SequenceResponse, c: Call, handler: Handler)
    requires o.responses != [] && c.job == PlainGet(handler)
    ensures Reaches(ExchangeOf(OneRoute(o, parse), c), "h", o)
  {
  }

  /** A respected Retry-After of two seconds schedules a sleep of two seconds. */
  lemma InstanceDelay(d: Call)
    requires d.policy == DEFAULT_POLICY && AsksAgain(d, 1) && JudgedAt(d, 1).verdict.Again?
    requires d.world.wire(1).response.retryAfter == Some("2")
    ensures JudgedAt(d, 1).verdict.event.delay == 2.0
  {
    hide SentAt, Strip, AllDigits, DigitsValue, BackoffCap, Uniform, IsReplayable;
    TwoSeconds();
    AttemptOutcome(d, 1);
    RescheduledIsSilent(d, 1);
  }

  /** The default policy and a server that answers 503 with a Retry-After of two seconds and then 200: two calls, one
      sleep of two seconds, and the handler's value. */
  lemma DefaultPolicyWaitsAndSucceeds<J>(parse: Body -> Parse<J>, o: MockServer.SequenceResponse, world: World,
                                         handler: Handler, value: int)
    requires o.responses == [MockServer.Answered(503, Some("2")), MockServer.Answered(200, None)]
    requires forall k :: world.asleep(k).None? && 0.0 <= world.draw(k) <= 1.0
    requires RunHandler(handler, HttpResponse(200, None, 2), None).0 == Return(value)
    ensures var v, c := OneRoute(o, parse), Call(PlainGet(handler), DEFAULT_POLICY, Noop, world, 0.0);
            && MockServer.SequencesFilled(v.state)
            && var d := Connected(c, ExchangeOf(v, c));
            && |Pick(Run(d).steps, SendStep)| == 2
            && |MockServer.Calls(Received(v, d, Run(d).steps), "h")| == 2
            && Pick(Run(d).steps, SleepStep) == [Sleep(1, 2.0)]
            && Run(d).outcome == Returned(UserValue(value))
  {
    hide Run, Pick, JudgedAt, SentAt, RoundAt, Connected, Received, Visible, AllFit, Reaches, RunHandler, AsksAgain;
    var v, c := OneRoute(o, parse), Call(PlainGet(handler), DEFAULT_POLICY, Noop, world, 0.0);
    var x := ExchangeOf(v, c);
    TwoSeconds();
    InstanceReplies(o);
    InstanceReaches(parse, o, c, handler);
    ConnectedKeeps(c, x);
    var d := Connected(c, x);
    ClientServer(c, v, x, d, "h", o, 1, 2);
    LoopScript(c, x, d, "h", o, 1, 2);
    WireIs(c, x, "h", o, 1);
    VisibleIsWire(o, 1);
    EventsAndSleeps(d);
    InstanceDelay(d);
  }
}
