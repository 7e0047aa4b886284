/** What every run of the retry loop keeps, for every policy, sink and world. */
module RunProperties {
  import opened Wrappers
  import opened Strings
  import opened Exceptions
  import opened Retry
  import opened Request
  import opened Handlers
  import opened Engine

  // ---- selecting steps -----------------------------------------------------------------------------

  datatype StepKind = SendStep | OpenStep | HandleStep | CloseStep | EventStep | SleepStep | MetricStep

  function KindOfStep(s: Step): StepKind {
    match s
    case Send(_, _, _) => SendStep
    case Open(_) => OpenStep
    case Handle(_, _) => HandleStep
    case Close(_) => CloseStep
    case Event(_) => EventStep
    case Sleep(_, _) => SleepStep
    case Metric(_) => MetricStep
  }

  /** The steps of one kind, in order. */
  function Pick(t: seq<Step>, kind: StepKind): (r: seq<Step>)
    ensures forall s :: s in r ==> s in t && KindOfStep(s) == kind
  {
    if t == [] then []
    else (if KindOfStep(t[0]) == kind then [t[0]] else []) + Pick(t[1..], kind)
  }

  lemma {:induction false} PickConcat(a: seq<Step>, b: seq<Step>, kind: StepKind)
    ensures Pick(a + b, kind) == Pick(a, kind) + Pick(b, kind)
  {
    if a == [] {
      assert a + b == b;
    } else {
      assert (a + b)[1..] == a[1..] + b;
      PickConcat(a[1..], b, kind);
    }
  }

  lemma PickOne(s: Step, kind: StepKind)
    ensures Pick([s], kind) == if KindOfStep(s) == kind then [s] else []
  {
    assert [s][1..] == [];
  }

  lemma PickTwo(s: Step, s': Step, kind: StepKind)
    ensures Pick([s, s'], kind) == Pick([s], kind) + Pick([s'], kind)
  {
    assert [s, s'] == [s] + [s'];
    PickConcat([s], [s'], kind);
  }

  // ---- what an attempt contributes -----------------------------------------------------------------

  /** The event an attempt reports about its own response, if any. */
  function StatusNotices(mode: Mode, world: World, k: nat): seq<Step> {
    match world.wire(k)
    case Fails(_, _) => []
    case Answers(response, _) =>
      match DecideStatus(mode, response.status)
      case Announce(reason) =>
        [Event(RetryEvent(KindOf(reason), StatusContext(mode.context, response.status), 0.0, reason))]
      case _ => []
  }

  /** The handler call of an attempt, if it gets that far. */
  function HandlerCalls(mode: Mode, handlers: HandlerMap, world: World, k: nat): seq<Step> {
    match world.wire(k)
    case Fails(_, _) => []
    case Answers(response, _) =>
      if !DecideStatus(mode, response.status).RetryIt? && FindHandler(handlers, response.status).Some?
      then [Handle(k, response.status)] else []
  }

  /** An attempt's steps, by the middle part they wrap. */
  lemma AttemptShape(mode: Mode, handlers: HandlerMap, kwargs: Kwargs, world: World, k: nat, now: real)
    ensures var steps := BaseAttempt(mode, handlers, kwargs, world, k, now).steps;
            var sent := [Send(k, SentKwargs(mode, kwargs), now)];
            var middle := StatusNotices(mode, world, k) + HandlerCalls(mode, handlers, world, k);
            steps == if world.wire(k).Fails? then sent + middle else sent + [Open(k)] + middle + [Close(k)]
  {
    match world.wire(k)
    case Fails(_, _) =>
    case Answers(response, _) =>
      assert Answered(mode, handlers, response, k).steps
          == StatusNotices(mode, world, k) + HandlerCalls(mode, handlers, world, k);
  }

  lemma PickMiddle(mode: Mode, handlers: HandlerMap, world: World, k: nat, kind: StepKind)
    ensures var notices, calls := StatusNotices(mode, world, k), HandlerCalls(mode, handlers, world, k);
            Pick(notices + calls, kind) == if kind == EventStep then notices else if kind == HandleStep then calls else []
  {
    hide Pick, DecideStatus, FindHandler;
    var notices, calls := StatusNotices(mode, world, k), HandlerCalls(mode, handlers, world, k);
    PickConcat(notices, calls, kind);
    PickNothing(kind);
    if notices != [] { PickOne(notices[0], kind); }
    if calls != [] { PickOne(calls[0], kind); }
  }

  /** What a plain attempt contributes of each kind. */
  function Contribution(mode: Mode, handlers: HandlerMap, kwargs: Kwargs, world: World, k: nat, now: real, kind: StepKind)
    : seq<Step>
  {
    match kind
    case SendStep => [Send(k, SentKwargs(mode, kwargs), now)]
    case OpenStep => if world.wire(k).Fails? then [] else [Open(k)]
    case CloseStep => if world.wire(k).Fails? then [] else [Close(k)]
    case HandleStep => HandlerCalls(mode, handlers, world, k)
    case EventStep => StatusNotices(mode, world, k)
    case SleepStep => []
    case MetricStep => []
  }

  lemma PickBase(mode: Mode, handlers: HandlerMap, kwargs: Kwargs, world: World, k: nat, now: real, kind: StepKind)
    ensures Pick(BaseAttempt(mode, handlers, kwargs, world, k, now).steps, kind)
         == Contribution(mode, handlers, kwargs, world, k, now, kind)
  {
    hide Pick, BaseAttempt, StatusNotices, HandlerCalls, SentKwargs;
    AttemptShape(mode, handlers, kwargs, world, k, now);
    PickMiddle(mode, handlers, world, k, kind);
    var send := Send(k, SentKwargs(mode, kwargs), now);
    var middle := StatusNotices(mode, world, k) + HandlerCalls(mode, handlers, world, k);
    if world.wire(k).Fails? {
      PickOne(send, kind);
      PickConcat([send], middle, kind);
    } else {
      PickFrame(send, k, middle, kind);
    }
  }

  lemma PickFrame(send: Step, k: nat, middle: seq<Step>, kind: StepKind)
    ensures Pick([send] + [Open(k)] + middle + [Close(k)], kind)
         == Pick([send], kind) + Pick([Open(k)], kind) + Pick(middle, kind) + Pick([Close(k)], kind)
    ensures forall x {:trigger Pick([x], kind)} :: x in {send, Open(k), Close(k)} ==>
              Pick([x], kind) == if KindOfStep(x) == kind then [x] else []
  {
    hide Pick;
    PickOne(send, kind);
    PickOne(Open(k), kind);
    PickOne(Close(k), kind);
    PickConcat([send], [Open(k)], kind);
    PickConcat([send] + [Open(k)], middle, kind);
    PickConcat([send] + [Open(k)] + middle, [Close(k)], kind);
  }

  lemma ObservationIsMetric(labels: Labels, outcome: Outcome, mark: Option<int>)
    ensures Observation(labels, outcome, mark).Metric? && Observation(labels, outcome, mark).call.Observed?
  {
  }

  lemma PickNothing(kind: StepKind)
    ensures Pick([], kind) == []
  {
  }

  /** The arguments an attempt is sent with under a sink. */
  function AttemptKwargs(job: Job, sink: Sink): Kwargs {
    if sink.Noop? then job.kwargs else TracedKwargs(job, sink)
  }

  lemma PickReported(lifecycle: bool, labels: Labels, inner: AttemptRun, kind: StepKind)
    requires kind != MetricStep
    ensures Pick(Reported(lifecycle, labels, inner).steps, kind) == Pick(inner.steps, kind)
  {
    hide Pick, Observation;
    var started := if lifecycle then [Metric(Started(labels))] else [];
    var ended := if lifecycle then [Metric(Ended(labels))] else [];
    var observed := [Observation(labels, inner.outcome, inner.mark)];
    ObservationIsMetric(labels, inner.outcome, inner.mark);
    PickNothing(kind);
    PickConcat(started, inner.steps, kind);
    PickConcat(started + inner.steps, ended, kind);
    PickConcat(started + inner.steps + ended, observed, kind);
    PickOne(Metric(Started(labels)), kind);
    PickOne(Metric(Ended(labels)), kind);
    PickOne(observed[0], kind);
  }

  /** An attempt contributes the same under every sink, up to the trace context it is sent with. */
  lemma PickAttempt(job: Job, mode: Mode, sink: Sink, world: World, k: nat, now: real, kind: StepKind)
    requires kind != MetricStep
    ensures Pick(Attempt(job, mode, sink, world, k, now).steps, kind)
         == Contribution(mode, job.handlers, AttemptKwargs(job, sink), world, k, now, kind)
  {
    if sink.Noop? {
      PickBase(mode, job.handlers, job.kwargs, world, k, now, kind);
    } else {
      var handlers := AllMarking(job.handlers);
      PickReported(sink.lifecycle, AttemptLabels(job, sink.resolve),
                   BaseAttempt(mode, handlers, TracedKwargs(job, sink), world, k, now), kind);
      PickBase(mode, handlers, TracedKwargs(job, sink), world, k, now, kind);
      match world.wire(k)
      case Answers(response, _) => WrappingCommutes(job.handlers, response, None);
      case _ =>
    }
  }

  // ---- the rounds of a run -----------------------------------------------------------------------------

  /** The attempt a run starting at k ends with: the first whose round asks for no other. */
  function LastAttempt(c: Call, k: nat): (n: nat)
    requires ValidCall(c) && 1 <= k <= c.policy.maxAttempts
    ensures k <= n <= c.policy.maxAttempts
    decreases c.policy.maxAttempts - k
  {
    if RoundAt(c, k).Last? then k else LastAttempt(c, k + 1)
  }

  function Attempts(c: Call): (n: nat)
    requires ValidCall(c)
    ensures 1 <= n <= c.policy.maxAttempts
  {
    LastAttempt(c, 1)
  }

  lemma {:induction false} OnlyTheLastEnds(c: Call, k: nat, i: nat)
    requires ValidCall(c) && 1 <= k <= c.policy.maxAttempts
    ensures RoundAt(c, LastAttempt(c, k)).Last?
    ensures k <= i < LastAttempt(c, k) ==> RoundAt(c, i).More?
    decreases c.policy.maxAttempts - k
  {
    hide RoundAt;
    if RoundAt(c, k).More? {
      OnlyTheLastEnds(c, k + 1, i);
    }
  }

  /** What a run still does when its attempt k has been judged and is retried: the sleep has begun. */
  function AfterSleep(c: Call, k: nat): RunResult
    requires ValidCall(c) && 1 <= k < c.policy.maxAttempts
  {
    match c.world.asleep(k)
    case Some(e) => RunResult([], Raised(Genuine(e)))
    case None => RunFrom(c, k + 1)
  }

  /** What a run still does after its attempt k. */
  function AfterAttempt(c: Call, k: nat): RunResult
    requires ValidCall(c) && 1 <= k <= c.policy.maxAttempts
  {
    match JudgedAt(c, k).verdict
    case Stop(final) => RunResult(JudgedAt(c, k).notices, final)
    case Again(event) =>
      var rest := AfterSleep(c, k);
      rest.(steps := [Event(event), Sleep(k, event.delay)] + rest.steps)
  }

  /** A run from attempt k on is that attempt and what follows it. */
  lemma RunFromIsAttempt(c: Call, k: nat)
    requires ValidCall(c) && 1 <= k <= c.policy.maxAttempts
    ensures var rest := AfterAttempt(c, k); RunFrom(c, k) == rest.(steps := AttemptAt(c, k).steps + rest.steps)
  {
    hide SentAt, AttemptAt, JudgedAt;
    var steps := AttemptAt(c, k).steps;
    match JudgedAt(c, k).verdict
    case Stop(_) =>
    case Again(event) =>
      var two := [Event(event), Sleep(k, event.delay)];
      if c.world.asleep(k).Some? {
        assert two + [] == two;
      } else {
        assert steps + two + RunFrom(c, k + 1).steps == steps + (two + RunFrom(c, k + 1).steps);
      }
  }

  /** The steps of rounds 1 to n. */
  function Rounds(c: Call, n: nat): seq<Step> {
    if n == 0 then [] else Rounds(c, n - 1) + RoundAt(c, n).steps
  }

  /** A run is its rounds up to the first that does not ask for another. */
  lemma RunIsItsRounds(c: Call)
    requires ValidCall(c)
    ensures Run(c).steps == Rounds(c, Attempts(c))
    ensures RoundAt(c, Attempts(c)) == Last(RoundAt(c, Attempts(c)).steps, Run(c).outcome)
  {
    hide RoundAt;
    RunFromRounds(c, 1);
    OnlyTheLastEnds(c, 1, 1);
    assert Rounds(c, 0) + RunFrom(c, 1).steps == RunFrom(c, 1).steps;
  }

  lemma {:induction false} RunFromRounds(c: Call, k: nat)
    requires ValidCall(c) && 1 <= k <= c.policy.maxAttempts
    ensures var n := LastAttempt(c, k);
            Rounds(c, k - 1) + RunFrom(c, k).steps == Rounds(c, n)
            && RoundAt(c, n) == Last(RoundAt(c, n).steps, RunFrom(c, k).outcome)
    decreases c.policy.maxAttempts - k
  {
    hide RoundAt;
    if RoundAt(c, k).More? {
      var rest := RunFrom(c, k + 1).steps;
      assert Rounds(c, k - 1) + (RoundAt(c, k).steps + rest) == Rounds(c, k) + rest;
      RunFromRounds(c, k + 1);
    }
  }

  /** The last attempt asked for another, but its sleep was cut short. */
  predicate CutShort(c: Call)
    requires ValidCall(c)
  {
    JudgedAt(c, Attempts(c)).verdict.Again?
  }

  /** How many retries were scheduled. */
  function Scheduling(c: Call): nat
    requires ValidCall(c)
  {
    if CutShort(c) then Attempts(c) else Attempts(c) - 1
  }

  lemma ScheduledRounds(c: Call, i: nat)
    requires ValidCall(c) && 1 <= i <= Scheduling(c)
    ensures JudgedAt(c, i).verdict.Again?
  {
    hide AttemptAt, JudgedAt;
    OnlyTheLastEnds(c, 1, i);
  }

  /** Both reports of an attempt give the same reason, because it depends only on verb, body and attempt. */
  lemma SuppressionAgrees(p: RetryPolicy, a: RetryContext, b: RetryContext)
    requires MatchesOutcome(p, a) && MatchesOutcome(p, b)
    requires a.verb == b.verb && a.replayable == b.replayable && a.attempt == b.attempt
    ensures SuppressionReason(p, a) == SuppressionReason(p, b)
  {
  }

  /** The outcome of attempt k: that of the physical request with the handlers in use. */
  lemma AttemptOutcome(c: Call, k: nat)
    requires 1 <= k
    ensures AttemptAt(c, k).outcome
         == BaseAttempt(ModeAt(c, k), HandlersUsed(c.job, c.sink), c.job.kwargs, c.world, k, SentAt(c, k)).outcome
  {
    hide SentAt, Answered;
  }

  /** A retried attempt is followed by the next one after its delay, and whatever the sleep overruns. */
  lemma WakesOnTime(c: Call, k: nat)
    requires 1 <= k && JudgedAt(c, k).verdict.Again?
    ensures SentAt(c, k + 1) == SentAt(c, k) + c.world.took(k) + JudgedAt(c, k).verdict.event.delay + c.world.late(k)
  {
    hide Attempt;
  }

  /** A rescheduled attempt has reported nothing else. */
  lemma RescheduledIsSilent(c: Call, k: nat)
    requires 1 <= k && JudgedAt(c, k).verdict.Again?
    ensures StatusNotices(ModeAt(c, k), c.world, k) == []
    ensures var e := JudgedAt(c, k).verdict.event;
            e.kind == Scheduled && e.context.attempt == k && e.delay >= 0.0 && ValidContext(e.context)
            && e.context.verb == Upper(c.job.verb) && e.context.replayable == IsReplayable(c.job.kwargs)
            && ShouldRetry(c.policy, e.context)
  {
    hide SentAt;
    UpperTwice(c.job.verb);
    AttemptOutcome(c, k);
  }

  /** The verb, the body and the budget allow another attempt after attempt k. */
  ghost predicate Repeatable(c: Call, k: nat) {
    Upper(c.job.verb) in c.policy.methods && CanBeSentAgain(c.job.kwargs) && k < c.policy.maxAttempts
  }

  predicate RetryableResponse(c: Call, k: nat) {
    var wire := c.world.wire(k);
    wire.Answers? && wire.closeError.None? && wire.response.status in c.policy.statuses
  }

  /** An exception that `except Exception` catches, that is no cancellation, and that is of a class the policy lists. */
  predicate RetryableFailure(c: Call, k: nat)
    requires 1 <= k
  {
    var out := AttemptAt(c, k).outcome;
    && out.Raised? && (out.thrown.ObservableTransportError? || Exception in out.thrown.exn.classes)
    && CancelledError !in Unwrap(out.thrown).classes && IsInstanceOfAny(Unwrap(out.thrown), c.policy.exceptions)
  }

  /** A delay for another attempt can be computed: from the response and its Retry-After, or from the exception. */
  predicate DelayKnown(c: Call, k: nat)
    requires 1 <= k
  {
    var out, w := AttemptAt(c, k).outcome, SurroundingsAt(c, k, SentAt(c, k));
    if out.Raised? then GetDelay(c.policy, ContextAt(c, k).(exception := Some(Unwrap(out.thrown))), None, w).Ok?
    else c.world.wire(k).Answers? && GetDelay(c.policy, StatusContext(ContextAt(c, k), c.world.wire(k).response.status),
                                              c.world.wire(k).response.retryAfter, w).Ok?
  }

  /** A strategy that always gives a delay: the default one up to the attempt it overflows at, or a custom one that gives
      no negative, infinite or missing value. */
  ghost predicate SteadyBackoff(c: Call) {
    match c.policy.backoff
    case FullJitter => c.policy.maxAttempts <= 1025 && forall k :: 0.0 <= c.world.draw(k) <= 1.0
    case Custom(strategy) =>
      forall context: RetryContext :: 1 <= context.attempt < c.policy.maxAttempts ==>
        strategy(context).Seconds? && strategy(context).seconds >= 0.0
  }

  /** No Retry-After, one that the policy does not respect, or one that is no numeral too long for a float. */
  predicate RetryAfterFits(p: RetryPolicy, retryAfter: Option<string>) {
    p.respectRetryAfter && retryAfter.Some? ==>
      var value := Strip(retryAfter.value);
      value != "" && AllDigits(value) ==> DigitsValue(value) < FLOAT_LIMIT
  }

  /** With a steady strategy a delay is known exactly when the Retry-After fits. */
  lemma DelayIsKnownIff(c: Call, context: RetryContext, retryAfter: Option<string>, k: nat, now: real)
    requires SteadyBackoff(c) && 1 <= context.attempt == k < c.policy.maxAttempts
    ensures GetDelay(c.policy, context, retryAfter, SurroundingsAt(c, k, now)).Ok? <==> RetryAfterFits(c.policy, retryAfter)
  {
    hide Strip, AllDigits, DigitsValue, BackoffCap, Uniform;
    if c.policy.backoff == FullJitter {
      UniformWithin(BackoffCap(context.attempt), c.world.draw(k));
    }
  }

  /** Another attempt is scheduled exactly when the outcome is one the policy retries, the request may be repeated, and
      its delay is known. */
  lemma AttemptIsRetriedIff(c: Call, k: nat)
    requires 1 <= k
    ensures JudgedAt(c, k).verdict.Again?
       <==> Repeatable(c, k) && (RetryableResponse(c, k) || RetryableFailure(c, k)) && DelayKnown(c, k)
  {
    hide SentAt, GetDelay, IsReplayable, CanBeSentAgain, IsInstanceOfAny, Attempt;
    AttemptOutcome(c, k);
    IsReplayableIff(c.job.kwargs);
  }

  /** What the judgement of round k contributes of each kind. */
  function Aftermath(c: Call, k: nat, kind: StepKind): seq<Step>
    requires 1 <= k
  {
    match JudgedAt(c, k).verdict
    case Stop(_) => if kind == EventStep then JudgedAt(c, k).notices else []
    case Again(event) =>
      if kind == EventStep then [Event(event)] else if kind == SleepStep then [Sleep(k, event.delay)] else []
  }

  function SentKwargsAt(c: Call, k: nat): Kwargs {
    AttemptKwargs(c.job, c.sink).(middlewares := [ExposeTransportErrors] + c.job.kwargs.middlewares)
  }

  lemma PickRound(c: Call, k: nat, kind: StepKind)
    requires 1 <= k && kind != MetricStep
    ensures Pick(RoundAt(c, k).steps, kind)
         == Contribution(ModeAt(c, k), c.job.handlers, AttemptKwargs(c.job, c.sink), c.world, k, SentAt(c, k), kind)
            + Aftermath(c, k, kind)
  {
    hide Pick, SentAt, Attempt, JudgedAt, Contribution;
    var steps, judged := AttemptAt(c, k).steps, JudgedAt(c, k);
    PickAttempt(c.job, ModeAt(c, k), c.sink, c.world, k, SentAt(c, k), kind);
    PickNothing(kind);
    match judged.verdict
    case Stop(_) =>
      PickConcat(steps, judged.notices, kind);
      NoticesShape(c, k);
      if judged.notices != [] {
        assert judged.notices == [judged.notices[0]];
        PickOne(judged.notices[0], kind);
      }
    case Again(event) =>
      PickConcat(steps, [Event(event), Sleep(k, event.delay)], kind);
      PickTwo(Event(event), Sleep(k, event.delay), kind);
      PickOne(Event(event), kind);
      PickOne(Sleep(k, event.delay), kind);
  }

  /** The exception path reports at most one event: a matched, suppressed exception of the attempt. */
  lemma NoticesShape(c: Call, k: nat)
    requires 1 <= k
    ensures var notices := JudgedAt(c, k).notices;
            |notices| <= 1
            && (notices != [] ==> notices[0].Event? && AttemptAt(c, k).outcome.Raised?)
            && (notices != [] ==> var e := notices[0].event;
                  e.kind == KindOf(e.reason) && e.kind != Scheduled && e.delay == 0.0
                  && e.context == ContextAt(c, k).(exception := Some(Unwrap(AttemptAt(c, k).outcome.thrown)))
                  && SuppressionReason(c.policy, e.context) == Some(e.reason))
  {
    hide SentAt, Attempt;
  }

  // ---- attempt accounting ------------------------------------------------------------------------------

  lemma RoundSends(c: Call, k: nat)
    requires 1 <= k
    ensures Pick(RoundAt(c, k).steps, SendStep) == [Send(k, SentKwargsAt(c, k), SentAt(c, k))]
  {
    hide Pick, RoundAt, SentAt, AttemptKwargs, JudgedAt;
    PickRound(c, k, SendStep);
    AttemptMiddlewares(c.job, c.sink);
  }

  lemma {:induction false} RoundsSend(c: Call, n: nat)
    ensures Pick(Rounds(c, n), SendStep) == seq(n, i requires 0 <= i < n => Send(i + 1, SentKwargsAt(c, i + 1), SentAt(c, i + 1)))
  {
    hide Pick, RoundAt, SentAt, SentKwargsAt;
    PickNothing(SendStep);
    if n > 0 {
      RoundsSend(c, n - 1);
      RoundSends(c, n);
      PickConcat(Rounds(c, n - 1), RoundAt(c, n).steps, SendStep);
    }
  }

  lemma AttemptMiddlewares(job: Job, sink: Sink)
    ensures AttemptKwargs(job, sink).middlewares == job.kwargs.middlewares
  {
  }

  /** Sends: one per attempt, numbered from 1, at most the limit, each at its time on the clock and each with the
      same arguments, in which the middlewares have not piled up. */
  lemma SendsAreTheAttempts(c: Call)
    requires ValidCall(c)
    ensures var sends := Pick(Run(c).steps, SendStep);
            |sends| == Attempts(c) && 1 <= |sends| <= c.policy.maxAttempts
            && forall i :: 0 <= i < |sends| ==> sends[i] == Send(i + 1, SentKwargsAt(c, 1), SentAt(c, i + 1))
  {
    hide Pick, RoundAt, SentAt, AttemptKwargs, Run;
    RunIsItsRounds(c);
    RoundsSend(c, Attempts(c));
  }

  lemma {:induction false} RoundsSchedule(c: Call, n: nat)
    requires forall i :: 1 <= i <= n ==> JudgedAt(c, i).verdict.Again?
    ensures var sleeps, events := Pick(Rounds(c, n), SleepStep), Pick(Rounds(c, n), EventStep);
            |sleeps| == |events| == n
            && forall i :: 1 <= i <= n ==> var e := JudgedAt(c, i).verdict.event;
                                           events[i - 1] == Event(e) && sleeps[i - 1] == Sleep(i, e.delay)
  {
    hide Pick, RoundAt, SentAt, JudgedAt, StatusNotices;
    PickNothing(SleepStep);
    PickNothing(EventStep);
    if n > 0 {
      RoundsSchedule(c, n - 1);
      PickRound(c, n, SleepStep);
      PickRound(c, n, EventStep);
      RescheduledIsSilent(c, n);
      PickConcat(Rounds(c, n - 1), RoundAt(c, n).steps, SleepStep);
      PickConcat(Rounds(c, n - 1), RoundAt(c, n).steps, EventStep);
    }
  }

  /** The events of the last attempt when it is not retried. */
  function TerminalEvents(c: Call): seq<Step>
    requires ValidCall(c)
  {
    var n := Attempts(c);
    if CutShort(c) then [] else StatusNotices(ModeAt(c, n), c.world, n) + JudgedAt(c, n).notices
  }

  /** The run's events and sleeps: one scheduled event and one sleep for each retry, then the terminal events. */
  lemma EventsAndSleeps(c: Call)
    requires ValidCall(c)
    ensures var m, sleeps, events := Scheduling(c), Pick(Run(c).steps, SleepStep), Pick(Run(c).steps, EventStep);
            |sleeps| == m && |events| == m + |TerminalEvents(c)| && events[m..] == TerminalEvents(c)
            && forall i :: 1 <= i <= m ==> JudgedAt(c, i).verdict.Again?
                                           && events[i - 1] == Event(JudgedAt(c, i).verdict.event)
                                           && sleeps[i - 1] == Sleep(i, JudgedAt(c, i).verdict.event.delay)
  {
    hide Pick, RoundAt, SentAt, JudgedAt, StatusNotices, Run, Attempts;
    var n, m := Attempts(c), Scheduling(c);
    RunIsItsRounds(c);
    forall i | 1 <= i <= m ensures JudgedAt(c, i).verdict.Again? { ScheduledRounds(c, i); }
    RoundsSchedule(c, m);
    if !CutShort(c) {
      PickConcat(Rounds(c, n - 1), RoundAt(c, n).steps, SleepStep);
      PickConcat(Rounds(c, n - 1), RoundAt(c, n).steps, EventStep);
      PickRound(c, n, SleepStep);
      PickRound(c, n, EventStep);
    }
  }

  /** Accounting: sends exceed scheduled retries by one, or equal them when a sleep was cut short; every slept
      delay is the one announced, in order and never negative; every event carries a valid context. */
  lemma Accounting(c: Call)
    requires ValidCall(c)
    ensures var t := Run(c).steps;
            var sends, sleeps, events := Pick(t, SendStep), Pick(t, SleepStep), Pick(t, EventStep);
            && |sends| == |sleeps| + (if CutShort(c) then 0 else 1)
            && |sleeps| <= |events|
            && (forall i :: 0 <= i < |sleeps| ==>
                  events[i].Event? && events[i].event.kind == Scheduled
                  && sleeps[i] == Sleep(i + 1, events[i].event.delay) && events[i].event.delay >= 0.0)
            && (forall i :: |sleeps| <= i < |events| ==> events[i].Event? && events[i].event.kind != Scheduled)
            && (forall i :: 0 <= i < |events| ==> events[i].Event? && ValidContext(events[i].event.context))
  {
    hide Pick, RoundAt, SentAt, JudgedAt, StatusNotices, Run, Attempts, TerminalEvents;
    var events, sleeps, m := Pick(Run(c).steps, EventStep), Pick(Run(c).steps, SleepStep), Scheduling(c);
    SendsAreTheAttempts(c);
    EventsAndSleeps(c);
    forall i | 0 <= i < m
      ensures var e := events[i];
              e.Event? && e.event.kind == Scheduled && e.event.context.attempt == i + 1
              && e.event.delay >= 0.0 && ValidContext(e.event.context) && sleeps[i] == Sleep(i + 1, e.event.delay)
    {
      ScheduledRounds(c, i + 1);
      RescheduledIsSilent(c, i + 1);
    }
    TerminalShape(c);
    forall i | m <= i < |events| ensures events[i] == TerminalEvents(c)[i - m] {
      assert events[i] == events[m..][i - m];
    }
  }

  // ---- event grammar -----------------------------------------------------------------------------------

  /** The last attempt got a response the policy retries, may not be repeated, and then failed with an exception the
      policy also retries: handling the response raised it, or releasing the response did. */
  predicate FailsAfterReport(c: Call)
    requires ValidCall(c)
  {
    var n := Attempts(c);
    var wire, out := c.world.wire(n), AttemptAt(c, n).outcome;
    && wire.Answers? && wire.response.status in c.policy.statuses
    && (Upper(c.job.verb) !in c.policy.methods || !IsReplayable(c.job.kwargs) || n == c.policy.maxAttempts)
    && out.Raised? && Catchable(out.thrown)
    && !IsInstance(Unwrap(out.thrown), CancelledError) && IsInstanceOfAny(Unwrap(out.thrown), c.policy.exceptions)
  }

  lemma TwoReportsIff(c: Call)
    requires ValidCall(c)
    ensures var n := Attempts(c);
            FailsAfterReport(c) <==> StatusNotices(ModeAt(c, n), c.world, n) != [] && JudgedAt(c, n).notices != []
    ensures FailsAfterReport(c) ==> !CutShort(c)
  {
    hide Attempts, SentAt, Attempt, GetDelay, IsInstanceOfAny, IsReplayable;
  }

  lemma TerminalShape(c: Call)
    requires ValidCall(c)
    ensures var terminal, n := TerminalEvents(c), Attempts(c);
            |terminal| <= 2
            && (forall i :: 0 <= i < |terminal| ==>
                  terminal[i].Event? && terminal[i].event.kind == KindOf(terminal[i].event.reason)
                  && terminal[i].event.kind != Scheduled && terminal[i].event.context.attempt == n
                  && terminal[i].event.reason in {MethodNotAllowed, BodyNotReplayable, AttemptsExhausted}
                  && ValidContext(terminal[i].event.context))
            && (|terminal| == 2 <==> FailsAfterReport(c))
            && (|terminal| == 2 ==> terminal[0].event.reason == terminal[1].event.reason
                                    && terminal[0].event.context.responseStatus.Some?
                                    && terminal[1].event.context.exception.Some?)
  {
    hide RoundAt, SentAt, JudgedAt, Attempts, AttemptAt, FailsAfterReport;
    var n := Attempts(c);
    NoticesShape(c, n);
    TwoReportsIff(c);
    UpperTwice(c.job.verb);
    if FailsAfterReport(c) {
      SuppressionAgrees(c.policy, TerminalEvents(c)[0].event.context, TerminalEvents(c)[1].event.context);
    }
  }

  /** Every run's events: scheduled ones with attempts 1, 2, 3, ..., then at most two that are not, all about the
      final attempt; two exactly when it fails after a report, and then of the same kind and reason, the first
      about the response and the second about the exception. */
  lemma EventGrammar(c: Call)
    requires ValidCall(c)
    ensures var t := Run(c).steps;
            var events, m := Pick(t, EventStep), |Pick(t, SleepStep)|;
            && m <= |events| <= m + 2
            && (forall i :: 0 <= i < |events| ==> events[i].Event?)
            && (forall i :: 0 <= i < m ==> events[i].event.kind == Scheduled && events[i].event.context.attempt == i + 1)
            && (forall i :: m <= i < |events| ==>
                  events[i].event.kind != Scheduled && events[i].event.context.attempt == |Pick(t, SendStep)| == m + 1)
            && (|events| == m + 2 <==> FailsAfterReport(c))
            && (|events| == m + 2 ==> events[m].event.kind == events[m + 1].event.kind
                                      && events[m].event.reason == events[m + 1].event.reason
                                      && events[m].event.context.responseStatus.Some?
                                      && events[m + 1].event.context.exception.Some?)
  {
    hide Pick, RoundAt, SentAt, JudgedAt, StatusNotices, Run, Attempts, TerminalEvents, FailsAfterReport;
    var events, m := Pick(Run(c).steps, EventStep), Scheduling(c);
    SendsAreTheAttempts(c);
    EventsAndSleeps(c);
    forall i | 0 <= i < m
      ensures var e := events[i];
              e.Event? && e.event.kind == Scheduled && e.event.context.attempt == i + 1
              && e.event.delay >= 0.0 && ValidContext(e.event.context)
    {
      ScheduledRounds(c, i + 1);
      RescheduledIsSilent(c, i + 1);
    }
    TerminalShape(c);
    forall i | m <= i < |events| ensures events[i] == TerminalEvents(c)[i - m] {
      assert events[i] == events[m..][i - m];
    }
    if CutShort(c) { NoTerminalWhenCutShort(c); }
  }

  lemma NoTerminalWhenCutShort(c: Call)
    requires ValidCall(c) && CutShort(c)
    ensures TerminalEvents(c) == []
  {
  }

  /** A terminal event is `exhausted` exactly when verb and body allow a repetition, and then the budget is used up;
      otherwise its reason is the verb, or failing that the body. */
  lemma TerminalEventsExplained(c: Call, i: nat)
    requires ValidCall(c)
    requires var events, m := Pick(Run(c).steps, EventStep), |Pick(Run(c).steps, SleepStep)|; m <= i < |events|
    ensures var events := Pick(Run(c).steps, EventStep);
            && events[i].Event?
            && var e := events[i].event;
            var allowed, replayable := Upper(c.job.verb) in c.policy.methods, IsReplayable(c.job.kwargs);
            && e.kind == (if allowed && replayable then Exhausted else Suppressed)
            && e.reason == (if !allowed then MethodNotAllowed else if !replayable then BodyNotReplayable else AttemptsExhausted)
            && (e.kind == Exhausted ==> |Pick(Run(c).steps, SendStep)| == c.policy.maxAttempts)
  {
    hide Pick, RoundAt, SentAt, JudgedAt, Run, Attempts, IsReplayable, StatusNotices, TerminalEvents;
    var events, m := Pick(Run(c).steps, EventStep), Scheduling(c);
    SendsAreTheAttempts(c);
    EventsAndSleeps(c);
    assert events[i] == events[m..][i - m];
    TerminalReason(c, i - m);
  }

  lemma TerminalReason(c: Call, j: nat)
    requires ValidCall(c) && j < |TerminalEvents(c)|
    ensures TerminalEvents(c)[j].Event?
    ensures var e := TerminalEvents(c)[j].event;
            && e.kind == KindOf(e.reason)
            && e.context.verb == Upper(c.job.verb) && e.context.replayable == IsReplayable(c.job.kwargs)
            && e.context.attempt == Attempts(c) && SuppressionReason(c.policy, e.context) == Some(e.reason)
  {
    hide RoundAt, SentAt, JudgedAt, Attempts, IsReplayable, StatusNotices, AttemptAt, SuppressionReason;
    NoticesShape(c, Attempts(c));
    StatusNoticesShape(c, Attempts(c));
    var reported := StatusNotices(ModeAt(c, Attempts(c)), c.world, Attempts(c));
    if j < |reported| {
      assert TerminalEvents(c)[j] in reported;
    }
  }

  lemma StatusNoticesShape(c: Call, k: nat)
    ensures forall x :: x in StatusNotices(ModeAt(c, k), c.world, k) ==>
              && x.Event? && x.event.kind == KindOf(x.event.reason)
              && x.event.context.verb == Upper(c.job.verb) && x.event.context.replayable == IsReplayable(c.job.kwargs)
              && x.event.context.attempt == k && SuppressionReason(c.policy, x.event.context) == Some(x.event.reason)
  {
    hide IsReplayable;
  }
}
