/** One physical request spelled out, and what the events and the sends of a run tell about its attempts. */
module RunEvents {
  import opened Wrappers
  import opened Strings
  import opened Exceptions
  import opened Retry
  import opened Request
  import opened Handlers
  import opened Engine
  import opened RunProperties

  // ---- one physical request ------------------------------------------------------------------------------

  /** The policy retries the response, so that no handler sees it. */
  predicate IsRetried(mode: Mode, response: HttpResponse) {
    mode.Retrying? && ShouldRetry(mode.policy, mode.context.(responseStatus := Some(response.status)))
  }

  /** The policy lists the response but does not allow a repetition, which is reported. */
  predicate IsAnnounced(mode: Mode, response: HttpResponse) {
    mode.Retrying? && MatchesOutcome(mode.policy, mode.context.(responseStatus := Some(response.status)))
    && !IsRetried(mode, response)
  }

  /** A response goes to a handler: the policy does not retry it and some key covers its status. */
  predicate IsHandled(mode: Mode, handlers: HandlerMap, response: HttpResponse) {
    !IsRetried(mode, response) && exists key :: key in handlers && Covers(key, response.status)
  }

  /** The steps of a physical request: it leaves once; when a response arrives it is opened, reported and handled if
      that is called for, and closed; and there is nothing else. */
  lemma AttemptSteps(mode: Mode, handlers: HandlerMap, kwargs: Kwargs, world: World, k: nat, now: real)
    ensures var t := BaseAttempt(mode, handlers, kwargs, world, k, now).steps;
            && t != [] && t[0].Send? && t[0].attempt == k && t[0].at == now
            && (forall i :: 1 <= i < |t| ==> !t[i].Send?)
            && match world.wire(k)
               case Fails(_, _) => |t| == 1
               case Answers(response, _) =>
                 var announced, handled := IsAnnounced(mode, response), IsHandled(mode, handlers, response);
                 && |t| == 3 + (if announced then 1 else 0) + (if handled then 1 else 0)
                 && t[1] == Open(k) && t[|t| - 1] == Close(k)
                 && (announced ==> t[2].Event?)
                 && (handled ==> t[|t| - 2] == Handle(k, response.status))
  {
    AttemptShape(mode, handlers, kwargs, world, k, now);
    match world.wire(k)
    case Fails(_, _) =>
    case Answers(response, _) =>
      var key := MostSpecificHandler(handlers, response.status);
  }

  /** What it is sent with: without a policy exactly its arguments, and with one the same in all but the middlewares,
      which come after the client's own. */
  lemma AttemptArguments(mode: Mode, handlers: HandlerMap, kwargs: Kwargs, world: World, k: nat, now: real)
    ensures var t := BaseAttempt(mode, handlers, kwargs, world, k, now).steps;
            && t != [] && t[0].Send?
            && t[0].kwargs.(middlewares := kwargs.middlewares) == kwargs
            && t[0].kwargs.middlewares == (if mode.Once? then [] else [ExposeTransportErrors]) + kwargs.middlewares
  {
    AttemptShape(mode, handlers, kwargs, world, k, now);
    assert [] + kwargs.middlewares == kwargs.middlewares;
  }

  /** How it comes out: it raises what the transport raised, wrapped exactly when a retrying request got a transport error
      inside its middlewares; or what releasing the response raised; or it returns the private response that is retried; or
      else the value or exception of the handler under the most specific key, called with the response by name; and
      without one it raises an error that carries the status. */
  lemma AttemptResult(mode: Mode, handlers: HandlerMap, kwargs: Kwargs, world: World, k: nat, now: real) returns (key: Key)
    ensures var out := BaseAttempt(mode, handlers, kwargs, world, k, now).outcome;
            match world.wire(k)
            case Fails(e, inStack) =>
              && out.Raised? && Unwrap(out.thrown) == e
              && (out.thrown.ObservableTransportError? <==>
                    mode.Retrying? && inStack && (IsInstance(e, ClientOSError) || IsInstance(e, ServerDisconnectedError)))
            case Answers(_, Some(e)) => out == Raised(Genuine(e))
            case Answers(response, None) =>
              if IsRetried(mode, response) then
                out == Returned(Retryable(mode.context.(responseStatus := Some(response.status)), response.retryAfter))
              else if IsHandled(mode, handlers, response) then
                && key in handlers && Covers(key, response.status)
                && (forall other :: other in handlers && Covers(other, response.status) ==> Specificity(other) <= Specificity(key))
                && match RunHandler(handlers[key], response, None).0
                   case Return(value) => out == Returned(UserValue(value))
                   case Raise(e) => out == Raised(Genuine(e))
              else
                && out.Raised? && out.thrown.Genuine?
                && out.thrown.exn.classes == {UnhandledStatus, Exception} && out.thrown.exn.status == Some(response.status)
  {
    key := Wildcard;
    match world.wire(k)
    case Fails(e, _) => AnyOfPair(e, ClientOSError, ServerDisconnectedError);
    case Answers(response, _) => key := MostSpecificHandler(handlers, response.status);
  }

  // ---- what is sent --------------------------------------------------------------------------------------

  /** The arguments of a physical request for a job: the caller's, with the client's own middleware in front when it may be
      retried, and with a trace context only when the sink records phases and the caller gave none. */
  ghost predicate IsSentFor(job: Job, sink: Sink, retried: bool, sent: Kwargs) {
    var given := job.kwargs;
    && sent.(middlewares := given.middlewares, traceContext := given.traceContext) == given
    && sent.middlewares == (if retried then [ExposeTransportErrors] else []) + given.middlewares
    && sent.traceContext ==
         if given.traceContext.Some? || sink.Noop? || !sink.phases then given.traceContext
         else if job.operation.Some? && job.operation.value != "" then
           Some(TraceContext(job.clientName, job.operation.value))
         else Some(TraceContext(job.clientName, sink.resolve(job.url)))
  }

  /** A request without a policy leaves once, with its own arguments. */
  lemma OnceIsSentOnce(job: Job, sink: Sink, world: World, k: nat, now: real) returns (sent: Kwargs)
    ensures Pick(Attempt(job, Once, sink, world, k, now).steps, SendStep) == [Send(k, sent, now)]
    ensures IsSentFor(job, sink, false, sent)
  {
    hide Pick, Attempt;
    PickAttempt(job, Once, sink, world, k, now, SendStep);
    sent := AttemptKwargs(job, sink);
    assert [] + job.kwargs.middlewares == job.kwargs.middlewares;
  }

  /** A run sends the same arguments with every attempt, the caller's own. */
  lemma SendsCarryTheArguments(c: Call, i: nat)
    requires ValidCall(c) && i < |Pick(Run(c).steps, SendStep)|
    ensures var send := Pick(Run(c).steps, SendStep)[i];
            send.Send? && send.attempt == i + 1 && IsSentFor(c.job, c.sink, true, send.kwargs)
  {
    hide Pick, Run, Attempts, SentAt;
    SendsAreTheAttempts(c);
  }

  /** The clock: the first attempt leaves at once; each later one when the attempt before it has ended, its delay has
      passed, and the sleep has overrun. */
  lemma SendTimes(c: Call, i: nat)
    requires ValidCall(c) && i < |Pick(Run(c).steps, SendStep)|
    ensures var sends, sleeps := Pick(Run(c).steps, SendStep), Pick(Run(c).steps, SleepStep);
            && sends[i].Send?
            && (i == 0 ==> sends[i].at == c.start)
            && (i > 0 ==> && i <= |sleeps| && sleeps[i - 1].Sleep? && sends[i - 1].Send?
                          && sends[i].at == sends[i - 1].at + c.world.took(i) + sleeps[i - 1].delay + c.world.late(i))
  {
    hide Pick, Run, Attempts, JudgedAfter;
    SendsAreTheAttempts(c);
    EventsAndSleeps(c);
    if i > 0 {
      ScheduledRounds(c, i);
      WakesOnTime(c, i);
    }
  }

  // ---- what the events say -------------------------------------------------------------------------------

  /** The context of an event about attempt k, apart from the outcome it tells of. */
  ghost predicate IsAbout(c: Call, k: nat, context: RetryContext) {
    && context.verb == Upper(c.job.verb) && context.url == c.job.url
    && context.attempt == k && context.maxAttempts == c.policy.maxAttempts
    && (context.replayable <==> CanBeSentAgain(c.job.kwargs))
  }

  /** It tells of the response of attempt k, and of no exception. */
  ghost predicate TellsOfResponse(c: Call, k: nat, context: RetryContext) {
    c.world.wire(k).Answers? && context.responseStatus == Some(c.world.wire(k).response.status) && context.exception.None?
  }

  /** It tells of the exception that attempt k raised, without the wrapper, and of no response. */
  ghost predicate TellsOfException(c: Call, k: nat, context: RetryContext)
    requires k >= 1
  {
    && context.responseStatus.None?
    && AttemptAt(c, k).outcome.Raised? && context.exception == Some(Unwrap(AttemptAt(c, k).outcome.thrown))
  }

  lemma ScheduledTells(c: Call, k: nat)
    requires 1 <= k && JudgedAt(c, k).verdict.Again?
    ensures var e := JudgedAt(c, k).verdict.event;
            && e.kind == Scheduled && IsAbout(c, k, e.context)
            && (if AttemptAt(c, k).outcome.Raised? then e.reason == ExceptionReason && TellsOfException(c, k, e.context)
                else e.reason == StatusReason && TellsOfResponse(c, k, e.context))
            && GetDelay(c.policy, e.context,
                        if AttemptAt(c, k).outcome.Raised? then None else c.world.wire(k).response.retryAfter,
                        Surroundings(SentAt(c, k) + c.world.took(k), c.world.parseDate, c.world.draw(k))) == Ok(e.delay)
  {
    hide SentAt, GetDelay, IsReplayable, CanBeSentAgain;
    AttemptOutcome(c, k);
    IsReplayableIff(c.job.kwargs);
  }

  /** Scheduled event number i is about attempt i + 1. Its reason is the exception, which it carries, when that attempt
      raised one, and otherwise the status of its response, which it carries; and its delay is that of the policy for this
      context, the response's Retry-After and the time at which the attempt ended. */
  lemma ScheduledEventsExplained(c: Call, i: nat)
    requires ValidCall(c) && i < |Pick(Run(c).steps, SleepStep)|
    ensures var t, k := Run(c).steps, i + 1;
            var events, sends := Pick(t, EventStep), Pick(t, SendStep);
            && i < |events| && events[i].Event? && i < |sends| && sends[i].Send?
            && var e, raised := events[i].event, AttemptAt(c, k).outcome.Raised?;
            && e.kind == Scheduled && IsAbout(c, k, e.context)
            && e.reason == (if raised then ExceptionReason else StatusReason)
            && (if raised then TellsOfException(c, k, e.context) else TellsOfResponse(c, k, e.context))
            && GetDelay(c.policy, e.context, if raised then None else c.world.wire(k).response.retryAfter,
                        Surroundings(sends[i].at + c.world.took(k), c.world.parseDate, c.world.draw(k))) == Ok(e.delay)
  {
    hide Pick, Run, Attempts, SentAt, JudgedAt, AttemptAt, GetDelay, IsAbout, TellsOfResponse, TellsOfException;
    hide StatusNotices;
    SendsAreTheAttempts(c);
    EventsAndSleeps(c);
    ScheduledTells(c, i + 1);
  }

  lemma TerminalTells(c: Call, j: nat)
    requires ValidCall(c) && j < |TerminalEvents(c)|
    ensures var n, x := Attempts(c), TerminalEvents(c)[j];
            && x.Event? && x.event.delay == 0.0 && IsAbout(c, n, x.event.context)
            && (if j == 0 && c.world.wire(n).Answers? && c.world.wire(n).response.status in c.policy.statuses
                then TellsOfResponse(c, n, x.event.context) else TellsOfException(c, n, x.event.context))
  {
    hide RoundAt, SentAt, Attempts, IsReplayable, CanBeSentAgain, Attempt, GetDelay, IsInstanceOfAny;
    var n := Attempts(c);
    IsReplayableIff(c.job.kwargs);
    NoticesShape(c, n);
    AttemptOutcome(c, n);
  }

  /** A terminal event is about the last attempt: the first one about its response, when the policy lists its status, and
      any other about the exception it raised. */
  lemma TerminalEventsTell(c: Call, i: nat)
    requires ValidCall(c)
    requires |Pick(Run(c).steps, SleepStep)| <= i < |Pick(Run(c).steps, EventStep)|
    ensures var t := Run(c).steps;
            var events, n, m := Pick(t, EventStep), |Pick(t, SendStep)|, |Pick(t, SleepStep)|;
            && n >= 1 && events[i].Event?
            && var e := events[i].event;
            && e.delay == 0.0 && IsAbout(c, n, e.context)
            && (if i == m && c.world.wire(n).Answers? && c.world.wire(n).response.status in c.policy.statuses
                then TellsOfResponse(c, n, e.context) else TellsOfException(c, n, e.context))
  {
    hide Pick, Run, Attempts, JudgedAt, AttemptAt, IsAbout, TellsOfResponse, TellsOfException, TerminalEvents;
    var events, m := Pick(Run(c).steps, EventStep), Scheduling(c);
    SendsAreTheAttempts(c);
    EventsAndSleeps(c);
    assert events[i] == events[m..][i - m];
    TerminalTells(c, i - m);
  }

  // ---- how a run ends ------------------------------------------------------------------------------------

  /** The outcome of attempt k is one that the policy retries, and verb, body and budget allow another attempt. */
  ghost predicate AsksForAnother(c: Call, k: nat)
    requires k >= 1
  {
    Repeatable(c, k) && (RetryableResponse(c, k) || RetryableFailure(c, k))
  }

  /** What the policy says of the delay after attempt k, from the exception it raised, or else from its response. */
  function DelayAfter(c: Call, k: nat): Result<real, Exn>
    requires k >= 1
  {
    var out, wire, w := AttemptAt(c, k).outcome, c.world.wire(k), SurroundingsAt(c, k, SentAt(c, k));
    var status, exception := if out.Returned? && wire.Answers? then Some(wire.response.status) else None,
                             if out.Raised? then Some(Unwrap(out.thrown)) else None;
    var context := RetryContext(Upper(c.job.verb), c.job.url, k, c.policy.maxAttempts, IsReplayable(c.job.kwargs), status,
                                exception);
    GetDelay(c.policy, context, if out.Returned? && wire.Answers? then wire.response.retryAfter else None, w)
  }

  /** How a run ends: when its last attempt does not ask for another, with that attempt's own value or exception, without
      the wrapper; when it does, with what computing the delay raised, or failing that with what cut the sleep short. */
  lemma RunEndsWith(c: Call)
    requires ValidCall(c)
    ensures var n, out := |Pick(Run(c).steps, SendStep)|, Run(c).outcome;
            && n >= 1
            && var last := AttemptAt(c, n).outcome;
            if !AsksForAnother(c, n) then
              match last
              case Returned(value) => value.UserValue? && out == last
              case Raised(thrown) => out == Raised(Genuine(Unwrap(thrown)))
            else
              match DelayAfter(c, n)
              case Err(e) => out == Raised(Genuine(e))
              case Ok(_) => c.world.asleep(n).Some? && out == Raised(Genuine(c.world.asleep(n).value))
  {
    hide Pick, Run, Attempts, RoundAt, AsksForAnother, DelayAfter, JudgedAt, AttemptAt;
    SendsAreTheAttempts(c);
    RunIsItsRounds(c);
    LastIsJudged(c, Attempts(c));
    EndOfRound(c, Attempts(c));
  }

  lemma EndOfRound(c: Call, k: nat)
    requires k >= 1 && RoundAt(c, k).Last?
    ensures match JudgedAt(c, k).verdict
            case Stop(out) => RoundAt(c, k).outcome == out
            case Again(_) => c.world.asleep(k).Some? && RoundAt(c, k).outcome == Raised(Genuine(c.world.asleep(k).value))
  {
    hide JudgedAt, AttemptAt;
  }

  lemma LastIsJudged(c: Call, k: nat)
    requires k >= 1
    ensures var last := AttemptAt(c, k).outcome;
            match JudgedAt(c, k).verdict
            case Again(_) => AsksForAnother(c, k) && DelayAfter(c, k).Ok?
            case Stop(out) =>
              if AsksForAnother(c, k) then DelayAfter(c, k).Err? && out == Raised(Genuine(DelayAfter(c, k).error))
              else
                match last
                case Returned(value) => value.UserValue? && out == last
                case Raised(thrown) => out == Raised(Genuine(Unwrap(thrown)))
  {
    hide SentAt, GetDelay, IsReplayable, CanBeSentAgain, IsInstanceOfAny, Attempt;
    AttemptOutcome(c, k);
    IsReplayableIff(c.job.kwargs);
  }
}
