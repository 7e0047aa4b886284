/** The client itself: an object with a switchable sink, whose request loop works step by step on a session.
    Each method is proved to do what the specification in Engine says. */
module Client {
  import opened Wrappers
  import opened Exceptions
  import opened Retry
  import opened Request
  import opened Headers
  import opened Handlers
  import opened Engine
  import Routes
  import RunProperties
  import RunEvents

  /** The outside world of one request, with the steps taken so far and the clock. */
  class Session {
    const world: World
    var trace: seq<Step>
    var now: real

    constructor (world: World, now: real)
      ensures this.world == world && this.now == now && trace == []
    {
      this.world, this.now, trace := world, now, [];
    }

    method Log(steps: seq<Step>)
      modifies this
      ensures trace == old(trace) + steps && now == old(now)
    {
      trace := trace + steps;
    }
  }

  /** A metrics sink object: which of the optional hooks it defines. */
  datatype SinkObject = NoopSink | UserSink(id: nat, hasStart: bool, hasEnd: bool, hasPhase: bool)

  /** The part of the client that enable_metrics, disable_metrics and instrument change. */
  datatype SinkState = SinkState(sink: SinkObject, lifecycle: bool, phases: bool, resolve: string -> string)

  /** _detect_lifecycle */
  predicate DetectLifecycle(sink: SinkObject) {
    sink.UserSink? && sink.hasStart && sink.hasEnd
  }

  ghost predicate Agrees(s: SinkState) {
    s.lifecycle == DetectLifecycle(s.sink) && s.phases == (s.sink.UserSink? && s.sink.hasPhase)
  }

  /** How an attempt sees a sink that is switched on, when the flags agree with it. */
  function Enabled(sink: SinkObject, resolve: string -> string): Sink {
    if sink.NoopSink? then Noop else Recording(DetectLifecycle(sink), sink.hasPhase, resolve)
  }

  /** A trace continued by an attempt. */
  ghost function After(trace: seq<Step>, a: AttemptRun): AttemptRun {
    a.(steps := trace + a.steps)
  }

  ghost function Continued(done: seq<Step>, rest: RunResult): RunResult {
    rest.(steps := done + rest.steps)
  }

  lemma Appended(trace: seq<Step>, a: seq<Step>, b: seq<Step>)
    ensures trace + (a + b) == trace + a + b
  {
  }

  lemma TurnAppended(trace: seq<Step>, steps: seq<Step>, event: Step, sleep: Step)
    ensures trace + steps + [event] + [sleep] == trace + (steps + [event, sleep])
  {
  }

  lemma HooksAppended(trace: seq<Step>, a: seq<Step>, b: seq<Step>, c: seq<Step>, d: seq<Step>)
    ensures trace + a + b + c + d == trace + (a + b + c + d)
    ensures trace + [] == trace
  {
  }

  lemma FirstTurn(c: Call)
    requires ValidCall(c)
    ensures SentAt(c, 1) == c.start && Run(c) == RunFrom(c, 1) == Continued([], RunFrom(c, 1))
  {
    assert [] + RunFrom(c, 1).steps == RunFrom(c, 1).steps;
  }

  lemma NextTurn(c: Call, k: nat)
    requires ValidCall(c) && 1 <= k <= c.policy.maxAttempts
    ensures match RoundAt(c, k)
            case Last(steps, outcome) => RunFrom(c, k) == RunResult(steps, outcome)
            case More(steps) =>
              k < c.policy.maxAttempts && RunFrom(c, k) == Continued(steps, RunFrom(c, k + 1))
  {
    hide RoundAt;
  }

  /** The trace, outcome and delay that carry out a judgement. */
  ghost predicate Follows(j: Judgement, before: seq<Step>, trace: seq<Step>, out: Outcome, delay: Option<real>) {
    match j.verdict
    case Stop(final) => trace == before + j.notices && delay == None && out == final
    case Again(event) => trace == before + [Event(event)] && delay == Some(event.delay)
  }

  /** Exactly one request leaves, at that time and with the arguments of the job. */
  ghost predicate LeavesOnce(job: Job, sink: Sink, steps: seq<Step>, now: real) {
    exists sent :: RunEvents.IsSentFor(job, sink, false, sent)
                   && RunProperties.Pick(steps, RunProperties.SendStep) == [Send(1, sent, now)]
  }

  lemma OnceLeavesOnce(job: Job, sink: Sink, world: World, now: real)
    ensures LeavesOnce(job, sink, Attempt(job, Once, sink, world, 1, now).steps, now)
  {
    var sent := RunEvents.OnceIsSentOnce(job, sink, world, 1, now);
  }

  lemma Slice(before: seq<Step>, steps: seq<Step>)
    ensures (before + steps)[|before|..] == steps
  {
  }

  class HttpClient {
    const clientName: string
    const proxy: Option<string>
    const proxyAuth: Option<BasicAuth>
    var metricsSink: SinkObject
    var sinkHasLifecycle: bool
    var sinkHasPhases: bool
    var resolveRoute: string -> string

    /** The flags agree with the sink. */
    ghost predicate Consistent()
      reads this
    {
      Agrees(SinkSettings())
    }

    function SinkSettings(): SinkState
      reads this
    {
      SinkState(metricsSink, sinkHasLifecycle, sinkHasPhases, resolveRoute)
    }

    function SinkView(): Sink
      reads this
    {
      if metricsSink.NoopSink? then Noop else Recording(sinkHasLifecycle, sinkHasPhases, resolveRoute)
    }

    constructor (clientName: string, proxy: Option<string>, proxyAuth: Option<BasicAuth>)
      ensures this.clientName == clientName && this.proxy == proxy && this.proxyAuth == proxyAuth
      ensures Consistent() && SinkView().Noop?
    {
      this.clientName, this.proxy, this.proxyAuth := clientName, proxy, proxyAuth;
      metricsSink, sinkHasLifecycle, sinkHasPhases, resolveRoute := NoopSink, false, false, Routes.DefaultRoute;
    }

    method EnableMetrics(sink: SinkObject, resolver: Option<string -> string>)
      modifies this
      ensures Consistent() && metricsSink == sink
      ensures resolveRoute == if resolver.Some? then resolver.value else old(resolveRoute)
      ensures SinkView() == Enabled(sink, resolveRoute)
      ensures SinkView() == if sink.NoopSink? then Noop
                            else Recording(sink.hasStart && sink.hasEnd, sink.hasPhase, resolveRoute)
    {
      metricsSink := sink;
      sinkHasLifecycle := DetectLifecycle(sink);
      sinkHasPhases := sink.UserSink? && sink.hasPhase;
      if resolver.Some? {
        resolveRoute := resolver.value;
      }
    }

    method DisableMetrics()
      modifies this
      ensures Consistent() && SinkView().Noop? && resolveRoute == Routes.DefaultRoute
    {
      metricsSink, sinkHasLifecycle, sinkHasPhases, resolveRoute := NoopSink, false, false, Routes.DefaultRoute;
    }

    /** __enter__ of instrument(sink): the settings to restore. */
    method EnterInstrument(sink: SinkObject, resolver: Option<string -> string>) returns (previous: SinkState)
      modifies this
      ensures Consistent() && metricsSink == sink
      ensures resolveRoute == if resolver.Some? then resolver.value else old(resolveRoute)
      ensures SinkView() == Enabled(sink, resolveRoute)
      ensures previous == old(SinkSettings())
    {
      previous := SinkState(metricsSink, sinkHasLifecycle, sinkHasPhases, resolveRoute);
      EnableMetrics(sink, resolver);
    }

    /** __exit__ of instrument(sink) */
    method ExitInstrument(previous: SinkState)
      modifies this
      ensures SinkSettings() == previous
      ensures Consistent() <==> Agrees(previous)
    {
      metricsSink, resolveRoute := previous.sink, previous.resolve;
      sinkHasLifecycle, sinkHasPhases := previous.lifecycle, previous.phases;
    }

    /** The body of `async with`: the status decision, then the handler. */
    method Respond(s: Session, mode: Mode, handlers: HandlerMap, response: HttpResponse, k: nat)
      returns (out: Outcome, mark: Option<int>)
      requires mode.Retrying? ==> ValidContext(mode.context) && mode.context.exception.None?
      modifies s
      ensures AttemptRun(s.trace, out, mark) == After(old(s.trace), Answered(mode, handlers, response, k))
      ensures s.now == old(s.now)
    {
      if mode.Retrying? {
        var responseContext := WithStatus(mode.context, response.status);
        assert responseContext == Ok(StatusContext(mode.context, response.status));
        if MatchesOutcome(mode.policy, responseContext.value) {
          var suppression := SuppressionReason(mode.policy, responseContext.value);
          if suppression.None? {
            return Returned(Retryable(responseContext.value, response.retryAfter)), None;
          }
          var event := NewEvent(KindOf(suppression.value), responseContext.value, 0.0, suppression.value);
          s.Log([Event(event.value)]);
        }
      }
      var handled := Handled(handlers, response, k);
      s.Log(handled.steps);
      return handled.outcome, handled.mark;
    }

    /** BaseHttpClient._request_once: one physical request. */
    method BaseRequestOnce(s: Session, mode: Mode, handlers: HandlerMap, kwargs: RequestKwargs, k: nat)
      returns (out: Outcome, mark: Option<int>)
      requires mode.Retrying? ==> ValidContext(mode.context) && mode.context.exception.None?
      modifies s
      ensures AttemptRun(s.trace, out, mark)
              == After(old(s.trace), BaseAttempt(mode, handlers, kwargs.View(), s.world, k, old(s.now)))
      ensures s.now == old(s.now) + s.world.took(k)
      ensures var given := old(kwargs.View());
              var sent := if mode.Once? then given
                          else given.(middlewares := [ExposeTransportErrors] + given.middlewares);
              |s.trace| > |old(s.trace)| && s.trace[|old(s.trace)|] == Send(k, sent, old(s.now))
    {
      hide DecideStatus, Answered, ThroughStack;
      var own := kwargs.Unpacked();
      if mode.Retrying? {
        own.middlewares := [ExposeTransportErrors] + own.middlewares;
      }
      var sent := own.View();
      s.Log([Send(k, sent, s.now)]);
      s.now := s.now + s.world.took(k);
      match s.world.wire(k)
      case Fails(e, inStack) =>
        return Raised(ThroughStack(mode, e, inStack)), None;
      case Answers(response, closeError) =>
        s.Log([Open(k)]);
        out, mark := Respond(s, mode, handlers, response, k);
        s.Log([Close(k)]);
        if closeError.Some? {
          out := Raised(Genuine(closeError.value));
        }
        ghost var inside := Answered(mode, handlers, response, k).steps;
        HooksAppended(old(s.trace), [Send(k, sent, old(s.now))], [Open(k)], inside, [Close(k)]);
    }

    /** InstrumentableHttpClient._request_once: the same attempt, reported to the sink. */
    method RequestOnce(s: Session, job: Job, mode: Mode, kwargs: RequestKwargs, k: nat) returns (out: Outcome)
      requires job.kwargs == kwargs.View()
      requires mode.Retrying? ==> ValidContext(mode.context) && mode.context.exception.None?
      modifies s
      ensures var a := Attempt(job, mode, SinkView(), s.world, k, old(s.now));
              s.trace == old(s.trace) + a.steps && out == a.outcome
      ensures s.now == old(s.now) + s.world.took(k)
    {
      if metricsSink.NoopSink? {
        var mark: Option<int>;
        out, mark := BaseRequestOnce(s, mode, job.handlers, kwargs, k);
        return;
      }
      var labels := AttemptLabels(job, resolveRoute);
      var own := kwargs.Unpacked();
      if sinkHasPhases && own.traceContext.None? {
        own.traceContext := Some(TraceContext(job.clientName, labels.operation));
      }
      var wrapped := WrapHandlers(job.handlers);
      out := ReportedRequest(s, mode, wrapped, own, labels, k);
    }

    /** The attempt between the sink's hooks. */
    method ReportedRequest(s: Session, mode: Mode, handlers: HandlerMap, kwargs: RequestKwargs, labels: Labels, k: nat)
      returns (out: Outcome)
      requires mode.Retrying? ==> ValidContext(mode.context) && mode.context.exception.None?
      modifies s
      ensures var a := Reported(sinkHasLifecycle, labels, BaseAttempt(mode, handlers, kwargs.View(), s.world, k, old(s.now)));
              s.trace == old(s.trace) + a.steps && out == a.outcome
      ensures s.now == old(s.now) + s.world.took(k)
    {
      ghost var inner := BaseAttempt(mode, handlers, kwargs.View(), s.world, k, s.now);
      if sinkHasLifecycle {
        s.Log([Metric(Started(labels))]);
      }
      var mark: Option<int>;
      out, mark := BaseRequestOnce(s, mode, handlers, kwargs, k);
      if sinkHasLifecycle {
        s.Log([Metric(Ended(labels))]);
      }
      s.Log([Observation(labels, out, mark)]);
      var started := if sinkHasLifecycle then [Metric(Started(labels))] else [];
      var ended := if sinkHasLifecycle then [Metric(Ended(labels))] else [];
      HooksAppended(old(s.trace), started, inner.steps, ended, [Observation(labels, out, mark)]);
    }

    /** _retry_exception_delay: the delay before the next attempt, or what is raised instead. */
    method RetryExceptionDelay(s: Session, policy: RetryPolicy, context: RetryContext, caught: Thrown, w: Surroundings)
      returns (r: Result<real, Thrown>)
      requires ValidContext(context) && context.responseStatus.None?
      requires Catchable(caught)
      modifies s
      ensures s.now == old(s.now)
      ensures var j := Judge(policy, context, Raised(caught), w);
              match j.verdict
              case Stop(outcome) => s.trace == old(s.trace) + j.notices && r.Err? && outcome == Raised(r.error)
              case Again(event) => s.trace == old(s.trace) + [Event(event)] && r == Ok(event.delay)
      ensures r.Ok? ==>
                var failed := context.(exception := Some(Unwrap(caught)));
                s.trace == old(s.trace) + [Event(RetryEvent(Scheduled, failed, r.value, ExceptionReason))]
    {
      var original := Unwrap(caught);
      var failed := WithException(context, original);
      assert failed == Ok(context.(exception := Some(original)));
      if !MatchesOutcome(policy, failed.value) {
        return Err(Genuine(original));
      }
      var suppression := SuppressionReason(policy, failed.value);
      if suppression.Some? {
        var event := NewEvent(KindOf(suppression.value), failed.value, 0.0, suppression.value);
        s.Log([Event(event.value)]);
        return Err(Genuine(original));
      }
      var delay := GetDelay(policy, failed.value, None, w);
      if delay.Err? {
        return Err(Genuine(delay.error));
      }
      var event := NewEvent(Scheduled, failed.value, delay.value, ExceptionReason);
      s.Log([Event(event.value)]);
      return Ok(delay.value);
    }

    /** Judging an outcome inside the loop: finished with `out`, or the delay before the next attempt. */
    method Decide(s: Session, policy: RetryPolicy, context: RetryContext, outcome: Outcome, w: Surroundings)
      returns (out: Outcome, delay: Option<real>)
      requires ValidContext(context) && context.responseStatus.None?
      requires outcome.Returned? && outcome.value.Retryable? ==> outcome.value.context.attempt >= 1
      modifies s
      ensures s.now == old(s.now)
      ensures Follows(Judge(policy, context, outcome, w), old(s.trace), s.trace, out, delay)
      ensures outcome.Returned? && delay.Some? ==>
                && outcome.value.Retryable?
                && s.trace == old(s.trace) + [Event(RetryEvent(Scheduled, outcome.value.context, delay.value, StatusReason))]
    {
      out, delay := outcome, None;
      if outcome.Raised? {
        if !Catchable(outcome.thrown) {
          return;
        }
        var decided := RetryExceptionDelay(s, policy, context, outcome.thrown, w);
        if decided.Err? {
          return Raised(decided.error), None;
        }
        return outcome, Some(decided.value);
      }
      if !outcome.value.Retryable? {
        return;
      }
      var computed := GetDelay(policy, outcome.value.context, outcome.value.retryAfter, w);
      if computed.Err? {
        return Raised(Genuine(computed.error)), None;
      }
      var event := NewEvent(Scheduled, outcome.value.context, computed.value, StatusReason);
      s.Log([Event(event.value)]);
      return outcome, Some(computed.value);
    }

    /** One turn of the loop up to the sleep: attempt k, then its judgement. */
    method Try(s: Session, ghost c: Call, job: Job, policy: RetryPolicy, kwargs: RequestKwargs, replayable: bool, k: nat)
      returns (out: Outcome, delay: Option<real>)
      requires c.job == job && c.policy == policy && c.sink == SinkView() && c.world == s.world
      requires job.kwargs == kwargs.View() && replayable == IsReplayable(job.kwargs)
      requires 1 <= k <= policy.maxAttempts && s.now == SentAt(c, k)
      modifies s
      ensures s.now == old(s.now) + s.world.took(k)
      ensures Follows(JudgedAt(c, k), old(s.trace) + AttemptAt(c, k).steps, s.trace, out, delay)
    {
      hide Attempt, Judge, SentAt;
      var context := NewContext(job.verb, job.url, k, policy.maxAttempts, replayable, None, None);
      assert context == Ok(ContextAt(c, k));
      out := RequestOnce(s, job, Retrying(policy, context.value), kwargs, k);
      out, delay := Decide(s, policy, context.value, out, Surroundings(s.now, s.world.parseDate, s.world.draw(k)));
    }

    /** One whole turn of the loop; `again` tells whether the run goes on. */
    method Turn(s: Session, ghost c: Call, job: Job, policy: RetryPolicy, kwargs: RequestKwargs, replayable: bool, k: nat)
      returns (out: Outcome, again: bool)
      requires c.job == job && c.policy == policy && c.sink == SinkView() && c.world == s.world
      requires job.kwargs == kwargs.View() && replayable == IsReplayable(job.kwargs)
      requires 1 <= k <= policy.maxAttempts && s.now == SentAt(c, k)
      modifies s
      ensures s.trace == old(s.trace) + RoundAt(c, k).steps
      ensures again ==> RoundAt(c, k).More? && s.now == SentAt(c, k + 1)
      ensures !again ==> RoundAt(c, k) == Last(RoundAt(c, k).steps, out)
    {
      ghost var steps, judged := AttemptAt(c, k).steps, JudgedAt(c, k);
      var delay: Option<real>;
      out, delay := Try(s, c, job, policy, kwargs, replayable, k);
      if delay.None? {
        Appended(old(s.trace), steps, judged.notices);
        return out, false;
      }
      s.Log([Sleep(k, delay.value)]);
      TurnAppended(old(s.trace), steps, Event(judged.verdict.event), Sleep(k, delay.value));
      var interrupted := s.world.asleep(k);
      if interrupted.Some? {
        return Raised(Genuine(interrupted.value)), false;
      }
      s.now := s.now + delay.value + s.world.late(k);
      return out, true;
    }

    /** The loop of _make_req. Its trailing `raise RuntimeError` is the point proved unreachable. */
    method RetryLoop(s: Session, job: Job, policy: RetryPolicy, kwargs: RequestKwargs) returns (out: Outcome)
      requires job.kwargs == kwargs.View()
      requires policy.maxAttempts >= 1
      modifies s
      ensures var run := Run(Call(job, policy, SinkView(), s.world, old(s.now)));
              s.trace == old(s.trace) + run.steps && out == run.outcome
    {
      hide RoundAt, RunFrom, Run, SentAt, IsReplayable;
      ghost var c := Call(job, policy, SinkView(), s.world, s.now);
      ghost var done: seq<Step> := [];
      var replayable := IsReplayable(kwargs.View());
      var attempt := 1;
      FirstTurn(c);
      while attempt <= policy.maxAttempts
        invariant 1 <= attempt <= policy.maxAttempts
        invariant s.now == SentAt(c, attempt)
        invariant s.trace == old(s.trace) + done
        invariant Run(c) == Continued(done, RunFrom(c, attempt))
        decreases policy.maxAttempts - attempt
      {
        var again: bool;
        out, again := Turn(s, c, job, policy, kwargs, replayable, attempt);
        ghost var steps := RoundAt(c, attempt).steps;
        Appended(old(s.trace), done, steps);
        NextTurn(c, attempt);
        if !again {
          return;
        }
        Appended(done, steps, RunFrom(c, attempt + 1).steps);
        done := done + steps;
        attempt := attempt + 1;
      }
      assert false;
    }

    /** The keyword arguments as the attempts get them: default proxy injected, auth turned into headers. */
    function Prepared(kwargs: Kwargs, encode: BasicAuth -> string): Result<Kwargs, Exn> {
      Normalized(if kwargs.proxy.ProxyNotGiven? && proxy.Some? then kwargs.(proxy := Proxy(proxy)) else kwargs,
                 proxyAuth, encode)
    }

    /** Exactly the accepted auth arguments get as far as a request: then the default proxy stands in for one that is not
        given, and body and trace context are the caller's. */
    ghost predicate IsPrepared(given: Kwargs, encode: BasicAuth -> string) {
      var prepared := Prepared(given, encode);
      && (prepared.Ok? <==> AcceptedAuth(given))
      && (prepared.Err? ==> prepared.error == Own(TypeError))
      && (prepared.Ok? ==>
            && prepared.value.proxy == (if given.proxy.ProxyNotGiven? && proxy.Some? then Proxy(proxy) else given.proxy)
            && prepared.value.data == given.data && prepared.value.traceContext == given.traceContext)
    }

    lemma PreparedIs(given: Kwargs, encode: BasicAuth -> string)
      ensures IsPrepared(given, encode)
      ensures Prepared(given, encode).Ok? <==> AcceptedAuth(given)
      ensures Prepared(given, encode).Err? ==> Prepared(given, encode).error == Own(TypeError)
    {
      var first := if given.proxy.ProxyNotGiven? && proxy.Some? then given.(proxy := Proxy(proxy)) else given;
      NormalizedIff(first, proxyAuth, encode);
      if AcceptedAuth(first) { NormalizedChanges(first, proxyAuth, encode); }
    }

    /** _make_req */
    method MakeReq(s: Session, verb: string, url: string, handlers: HandlerMap, retry: Option<RetryPolicy>,
                   operation: Option<string>, kwargs: RequestKwargs, encode: BasicAuth -> string)
      returns (out: Outcome)
      requires retry.Some? ==> retry.value.maxAttempts >= 1
      modifies s, kwargs
      ensures match Prepared(old(kwargs.View()), encode)
              case Err(e) => out == Raised(Genuine(e)) && s.trace == old(s.trace)
              case Ok(sent) =>
                kwargs.View() == sent &&
                var job := Job(verb, url, clientName, operation, handlers, sent);
                match retry
                case None =>
                  var a := Attempt(job, Once, SinkView(), s.world, 1, old(s.now));
                  s.trace == old(s.trace) + a.steps && out == a.outcome
                case Some(policy) =>
                  var run := Run(Call(job, policy, SinkView(), s.world, old(s.now)));
                  s.trace == old(s.trace) + run.steps && out == run.outcome
      ensures IsPrepared(old(kwargs.View()), encode)
      ensures !AcceptedAuth(old(kwargs.View())) ==> out == Raised(Genuine(Own(TypeError)))
      ensures AcceptedAuth(old(kwargs.View())) && retry.None? ==>
                LeavesOnce(Job(verb, url, clientName, operation, handlers, kwargs.View()), SinkView(),
                           s.trace[|old(s.trace)|..], old(s.now))
    {
      hide Normalized, Attempt, Run, IsPrepared, LeavesOnce, AcceptedAuth;
      PreparedIs(kwargs.View(), encode);
      if kwargs.proxy.ProxyNotGiven? && proxy.Some? {
        kwargs.proxy := Proxy(proxy);
      }
      var error := kwargs.NormalizeAuth(proxyAuth, encode);
      if error.Some? {
        return Raised(Genuine(error.value));
      }
      var job := Job(verb, url, clientName, operation, handlers, kwargs.View());
      match retry
      case None =>
        OnceLeavesOnce(job, SinkView(), s.world, s.now);
        out := RequestOnce(s, job, Once, kwargs, 1);
        Slice(old(s.trace), s.trace[|old(s.trace)|..]);
      case Some(policy) =>
        out := RetryLoop(s, job, policy, kwargs);
    }
  }
}
