/** The specification of one logical request: what each physical attempt does, how its outcome is judged,
    and the run they make together. The outside world is an arbitrary script. */
module Engine {
  import opened Wrappers
  import opened Exceptions
  import opened Retry
  import opened Request
  import opened Handlers
  import Strings

  // ---- observable steps --------------------------------------------------------------------------

  datatype Labels = Labels(client: string, verb: string, route: string, operation: string)

  datatype SinkCall =
    | Started(labels: Labels)
    | Ended(labels: Labels)
    | Observed(labels: Labels, status: StatusLabel, outcome: OutcomeLabel, error: Option<ErrorLabel>)

  datatype Step =
    | Send(attempt: nat, kwargs: Kwargs, at: real)   // a physical request leaves
    | Open(attempt: nat)                             // its response has arrived
    | Handle(attempt: nat, status: int)              // a status handler is called
    | Close(attempt: nat)                            // the response is released
    | Event(event: RetryEvent)                       // a retry event is built for the observer
    | Sleep(attempt: nat, delay: real)
    | Metric(call: SinkCall)

  /** What a request gives back; Retryable is the client's private signal to its own loop. */
  datatype Value = UserValue(value: int) | Retryable(context: RetryContext, retryAfter: Option<string>)

  datatype Outcome = Returned(value: Value) | Raised(thrown: Thrown)

  // ---- the world -----------------------------------------------------------------------------------

  /** What attempt k meets: the request raises, inside or outside the middleware stack, or a response
      arrives and releasing it may raise. */
  datatype Wire =
    | Fails(exn: Exn, inStack: bool)
    | Answers(response: HttpResponse, closeError: Option<Exn>)

  /** The script of one logical request, by attempt. Cancellation is any of these exceptions. */
  datatype World = World(
    wire: nat -> Wire,
    took: nat -> real,               // duration of the attempt
    asleep: nat -> Option<Exn>,      // what ends the sleep after it early, if anything
    late: nat -> real,               // by how much the sleep overruns
    draw: nat -> real,               // random.random() for its backoff
    parseDate: string -> Option<real>)

  datatype Job = Job(verb: string, url: string, clientName: string, operation: Option<string>,
                     handlers: HandlerMap, kwargs: Kwargs)

  /** The sink as an attempt sees it. */
  datatype Sink = Noop | Recording(lifecycle: bool, phases: bool, resolve: string -> string)

  /** _request_once without, or with, a retry policy and the context of the attempt. */
  datatype Mode = Once | Retrying(policy: RetryPolicy, context: RetryContext)

  // ---- one attempt -----------------------------------------------------------------------------------

  datatype AttemptRun = AttemptRun(steps: seq<Step>, outcome: Outcome, mark: Option<int>)

  /** _expose_aiohttp_transport_errors, outermost in the stack of a retrying request. */
  function ThroughStack(mode: Mode, e: Exn, inStack: bool): Thrown {
    if mode.Retrying? && inStack && IsInstanceOfAny(e, [ClientOSError, ServerDisconnectedError])
    then ObservableTransportError(e)
    else Genuine(e)
  }

  function SentKwargs(mode: Mode, kwargs: Kwargs): Kwargs {
    if mode.Retrying? then kwargs.(middlewares := [ExposeTransportErrors] + kwargs.middlewares) else kwargs
  }

  /** apply_handler */
  function Handled(handlers: HandlerMap, response: HttpResponse, k: nat): AttemptRun {
    match FindHandler(handlers, response.status)
    case None => AttemptRun([], Raised(Genuine(UnhandledStatusError(response.status))), None)
    case Some(handler) =>
      var (result, mark) := RunHandler(handler, response, None);
      AttemptRun([Handle(k, response.status)],
                 match result case Return(v) => Returned(UserValue(v)) case Raise(e) => Raised(Genuine(e)),
                 mark)
  }

  function StatusContext(context: RetryContext, status: int): RetryContext {
    context.(responseStatus := Some(status))
  }

  /** What the policy says to a response: nothing, retry it, or report why it is not retried. */
  datatype StatusDecision = Ignored | RetryIt | Announce(reason: Reason)

  function DecideStatus(mode: Mode, status: int): StatusDecision {
    if mode.Once? || !MatchesOutcome(mode.policy, StatusContext(mode.context, status)) then Ignored
    else
      match SuppressionReason(mode.policy, StatusContext(mode.context, status))
      case None => RetryIt
      case Some(reason) => Announce(reason)
  }

  /** The body of `async with`: between Open and Close. */
  function Answered(mode: Mode, handlers: HandlerMap, response: HttpResponse, k: nat): (r: AttemptRun)
    ensures r.outcome.Returned? && r.outcome.value.Retryable? ==>
              mode.Retrying? && r.outcome.value.context.attempt == mode.context.attempt
  {
    var decision := DecideStatus(mode, response.status);
    if decision.RetryIt? then
      AttemptRun([], Returned(Retryable(StatusContext(mode.context, response.status), response.retryAfter)), None)
    else
      var handled := Handled(handlers, response, k);
      if decision.Ignored? then handled
      else
        var event := RetryEvent(KindOf(decision.reason), StatusContext(mode.context, response.status), 0.0, decision.reason);
        handled.(steps := [Event(event)] + handled.steps)
  }

  /** BaseHttpClient._request_once */
  function BaseAttempt(mode: Mode, handlers: HandlerMap, kwargs: Kwargs, world: World, k: nat, now: real): (r: AttemptRun)
    ensures r.outcome.Returned? && r.outcome.value.Retryable? ==>
              mode.Retrying? && r.outcome.value.context.attempt == mode.context.attempt
  {
    var sent := [Send(k, SentKwargs(mode, kwargs), now)];
    match world.wire(k)
    case Fails(e, inStack) => AttemptRun(sent, Raised(ThroughStack(mode, e, inStack)), None)
    case Answers(response, closeError) =>
      var inside := Answered(mode, handlers, response, k);
      AttemptRun(sent + [Open(k)] + inside.steps + [Close(k)],
                 if closeError.Some? then Raised(Genuine(closeError.value)) else inside.outcome,
                 inside.mark)
  }

  function AttemptLabels(job: Job, resolve: string -> string): Labels {
    var route := resolve(job.url);
    Labels(job.clientName, job.verb, route,
           if job.operation.Some? && job.operation.value != "" then job.operation.value else route)
  }

  function TracedKwargs(job: Job, sink: Sink): Kwargs
    requires sink.Recording?
  {
    if sink.phases && job.kwargs.traceContext.None?
    then job.kwargs.(traceContext := Some(TraceContext(job.clientName, AttemptLabels(job, sink.resolve).operation)))
    else job.kwargs
  }

  function SuccessStatus(status: Option<int>): StatusLabel {
    if status.Some? then Code(status.value) else OkStatus
  }

  /** The labels an attempt is observed with, from its outcome and the status its handler was called with. */
  function Classify(outcome: Outcome, mark: Option<int>): (StatusLabel, OutcomeLabel, Option<ErrorLabel>) {
    match outcome
    case Returned(UserValue(_)) => (SuccessStatus(mark), Response, None)
    case Returned(Retryable(context, _)) => (SuccessStatus(context.responseStatus), Response, None)
    case Raised(thrown) =>
      var (status, result, error) := ClassifyFailure(Unwrap(thrown), mark);
      (status, result, Some(error))
  }

  function Observation(labels: Labels, outcome: Outcome, mark: Option<int>): Step {
    var (status, result, error) := Classify(outcome, mark);
    Metric(Observed(labels, status, result, error))
  }

  /** An attempt between its lifecycle hooks, then observed. */
  function Reported(lifecycle: bool, labels: Labels, inner: AttemptRun): AttemptRun {
    var started := if lifecycle then [Metric(Started(labels))] else [];
    var ended := if lifecycle then [Metric(Ended(labels))] else [];
    inner.(steps := started + inner.steps + ended + [Observation(labels, inner.outcome, inner.mark)])
  }

  /** InstrumentableHttpClient._request_once */
  function Attempt(job: Job, mode: Mode, sink: Sink, world: World, k: nat, now: real): (r: AttemptRun)
    ensures r.outcome.Returned? && r.outcome.value.Retryable? ==>
              mode.Retrying? && r.outcome.value.context.attempt == mode.context.attempt
  {
    if sink.Noop? then BaseAttempt(mode, job.handlers, job.kwargs, world, k, now)
    else
      Reported(sink.lifecycle, AttemptLabels(job, sink.resolve),
               BaseAttempt(mode, AllMarking(job.handlers), TracedKwargs(job, sink), world, k, now))
  }

  /** The handlers that an attempt calls: the wrapped ones when it is reported. */
  function HandlersUsed(job: Job, sink: Sink): HandlerMap {
    if sink.Noop? then job.handlers else AllMarking(job.handlers)
  }

  // ---- judging an attempt ------------------------------------------------------------------------------

  datatype Verdict = Stop(outcome: Outcome) | Again(event: RetryEvent)

  datatype Judgement = Judgement(notices: seq<Step>, verdict: Verdict)

  function Reschedule(policy: RetryPolicy, context: RetryContext, retryAfter: Option<string>, reason: Reason,
                      w: Surroundings): Judgement
    requires context.attempt >= 1
  {
    match GetDelay(policy, context, retryAfter, w)
    case Err(e) => Judgement([], Stop(Raised(Genuine(e))))
    case Ok(delay) => Judgement([], Again(RetryEvent(Scheduled, context, delay, reason)))
  }

  /** What the loop does with an attempt's outcome: the exception path and the retryable-response path. */
  function Judge(policy: RetryPolicy, context: RetryContext, outcome: Outcome, w: Surroundings): Judgement
    requires context.attempt >= 1
    requires outcome.Returned? && outcome.value.Retryable? ==> outcome.value.context.attempt >= 1
  {
    match outcome
    case Returned(UserValue(_)) => Judgement([], Stop(outcome))
    case Returned(Retryable(responseContext, retryAfter)) =>
      Reschedule(policy, responseContext, retryAfter, StatusReason, w)
    case Raised(thrown) =>
      var original := Unwrap(thrown);
      var failed := context.(exception := Some(original));
      if !Catchable(thrown) then Judgement([], Stop(outcome))
      else if !MatchesOutcome(policy, failed) then Judgement([], Stop(Raised(Genuine(original))))
      else
        match SuppressionReason(policy, failed)
        case Some(reason) =>
          Judgement([Event(RetryEvent(KindOf(reason), failed, 0.0, reason))], Stop(Raised(Genuine(original))))
        case None => Reschedule(policy, failed, None, ExceptionReason, w)
  }

  // ---- the run --------------------------------------------------------------------------------------------

  /** One call of _make_req with a policy, in one world. */
  datatype Call = Call(job: Job, policy: RetryPolicy, sink: Sink, world: World, start: real)

  ghost predicate ValidCall(c: Call) {
    c.policy.maxAttempts >= 1
  }

  function ContextAt(c: Call, k: nat): RetryContext {
    RetryContext(Strings.Upper(c.job.verb), c.job.url, k, c.policy.maxAttempts, IsReplayable(c.job.kwargs), None, None)
  }

  function ModeAt(c: Call, k: nat): Mode {
    Retrying(c.policy, ContextAt(c, k))
  }

  function SurroundingsAt(c: Call, k: nat, now: real): Surroundings {
    Surroundings(now + c.world.took(k), c.world.parseDate, c.world.draw(k))
  }

  /** Attempt k sent at a given time, and its judgement. A next attempt is only ever announced below the limit. */
  function JudgedAfter(c: Call, k: nat, now: real): (j: Judgement)
    requires 1 <= k
    ensures j.verdict.Again? ==> k < c.policy.maxAttempts && j.notices == []
  {
    Judge(c.policy, ContextAt(c, k), Attempt(c.job, ModeAt(c, k), c.sink, c.world, k, now).outcome,
          SurroundingsAt(c, k, now))
  }

  /** When attempt k is sent, if the run gets that far. */
  function SentAt(c: Call, k: nat): real
    requires 1 <= k
  {
    if k == 1 then c.start
    else
      var now := SentAt(c, k - 1);
      var verdict := JudgedAfter(c, k - 1, now).verdict;
      now + c.world.took(k - 1) + (if verdict.Again? then verdict.event.delay else 0.0) + c.world.late(k - 1)
  }

  function AttemptAt(c: Call, k: nat): AttemptRun
    requires 1 <= k
  {
    Attempt(c.job, ModeAt(c, k), c.sink, c.world, k, SentAt(c, k))
  }

  function JudgedAt(c: Call, k: nat): (j: Judgement)
    requires 1 <= k
    ensures j.verdict.Again? ==> k < c.policy.maxAttempts && j.notices == []
  {
    JudgedAfter(c, k, SentAt(c, k))
  }

  /** One turn of the loop: it ends the run, or the run goes on with the next attempt. */
  datatype Round = Last(steps: seq<Step>, outcome: Outcome) | More(steps: seq<Step>)

  /** Attempt k, its judgement and, when there is to be a next attempt, the event and the sleep. */
  function RoundAt(c: Call, k: nat): (r: Round)
    requires 1 <= k
    ensures r.More? ==> k < c.policy.maxAttempts
  {
    var steps, judged := AttemptAt(c, k).steps, JudgedAt(c, k);
    match judged.verdict
    case Stop(outcome) => Last(steps + judged.notices, outcome)
    case Again(event) =>
      var scheduled := steps + [Event(event), Sleep(k, event.delay)];
      if c.world.asleep(k).Some? then Last(scheduled, Raised(Genuine(c.world.asleep(k).value))) else More(scheduled)
  }

  datatype RunResult = RunResult(steps: seq<Step>, outcome: Outcome)

  /** The run from attempt k on. */
  function RunFrom(c: Call, k: nat): RunResult
    requires ValidCall(c) && 1 <= k <= c.policy.maxAttempts
    decreases c.policy.maxAttempts - k
  {
    match RoundAt(c, k)
    case Last(steps, outcome) => RunResult(steps, outcome)
    case More(steps) =>
      var rest := RunFrom(c, k + 1);
      RunResult(steps + rest.steps, rest.outcome)
  }

  function Run(c: Call): RunResult
    requires ValidCall(c)
  {
    RunFrom(c, 1)
  }
}
