/** Instrumenting a client changes nothing but the metrics, and the metrics are exactly the physical attempts. */
module Instrumentation {
  import opened Wrappers
  import opened Exceptions
  import opened Retry
  import opened Request
  import opened Handlers
  import opened Engine
  import opened RunProperties
  import opened Metrics

  // ---- transparency --------------------------------------------------------------------------------------

  function ErasedStep(s: Step): seq<Step> {
    match s
    case Metric(_) => []
    case Send(k, kwargs, at) => [Send(k, kwargs.(traceContext := None), at)]
    case _ => [s]
  }

  /** A trace without its sink calls and without the trace context of its sends. */
  function Erased(t: seq<Step>): seq<Step> {
    if t == [] then [] else ErasedStep(t[0]) + Erased(t[1..])
  }

  lemma {:induction false} ErasedConcat(a: seq<Step>, b: seq<Step>)
    ensures Erased(a + b) == Erased(a) + Erased(b)
  {
    if a == [] {
      assert a + b == b;
    } else {
      assert (a + b)[1..] == a[1..] + b;
      ErasedConcat(a[1..], b);
    }
  }

  lemma ErasedOne(s: Step)
    ensures Erased([s]) == ErasedStep(s) && Erased([]) == []
  {
    assert [s][1..] == [];
  }

  lemma ErasedReported(lifecycle: bool, labels: Labels, inner: AttemptRun)
    ensures Erased(Reported(lifecycle, labels, inner).steps) == Erased(inner.steps)
    ensures Reported(lifecycle, labels, inner).outcome == inner.outcome
  {
    hide Erased, Observation;
    var started := if lifecycle then [Metric(Started(labels))] else [];
    var ended := if lifecycle then [Metric(Ended(labels))] else [];
    var observed := [Observation(labels, inner.outcome, inner.mark)];
    ObservationIsMetric(labels, inner.outcome, inner.mark);
    ErasedConcat(started, inner.steps);
    ErasedConcat(started + inner.steps, ended);
    ErasedConcat(started + inner.steps + ended, observed);
    ErasedOne(Metric(Started(labels)));
    ErasedOne(Metric(Ended(labels)));
    ErasedOne(observed[0]);
  }

  lemma ErasedSend(k: nat, mode: Mode, a: Kwargs, b: Kwargs, now: real, rest: seq<Step>)
    requires a.(traceContext := None) == b.(traceContext := None)
    ensures Erased([Send(k, SentKwargs(mode, a), now)] + rest) == Erased([Send(k, SentKwargs(mode, b), now)] + rest)
  {
    assert ([Send(k, SentKwargs(mode, a), now)] + rest)[1..] == rest;
    assert ([Send(k, SentKwargs(mode, b), now)] + rest)[1..] == rest;
  }

  /** A status handler is called on attempt k. */
  predicate CallsHandler(mode: Mode, handlers: HandlerMap, world: World, k: nat) {
    world.wire(k).Answers? && !DecideStatus(mode, world.wire(k).response.status).RetryIt?
    && FindHandler(handlers, world.wire(k).response.status).Some?
  }

  /** Reporting attempt k does not show in its outcome: no handler is called, what it does is overridden by an error on
      release, or it takes the response both ways. */
  predicate HandledAlike(job: Job, mode: Mode, sink: Sink, world: World, k: nat) {
    sink.Recording? && CallsHandler(mode, job.handlers, world, k) && world.wire(k).closeError.None? ==>
      TakesBothWays(FindHandler(job.handlers, world.wire(k).response.status).value, world.wire(k).response)
  }

  lemma WrappedCalls(mode: Mode, handlers: HandlerMap, world: World, k: nat)
    ensures HandlerCalls(mode, AllMarking(handlers), world, k) == HandlerCalls(mode, handlers, world, k)
  {
    hide DecideStatus, FindHandler, RunHandler, AllMarking;
    if world.wire(k).Answers? {
      WrappingCommutes(handlers, world.wire(k).response, None);
    }
  }

  lemma WrappedOutcome(mode: Mode, handlers: HandlerMap, a: Kwargs, b: Kwargs, world: World, k: nat, now: real)
    ensures var plain := BaseAttempt(mode, handlers, b, world, k, now).outcome;
            BaseAttempt(mode, AllMarking(handlers), a, world, k, now).outcome == plain
            <==> (CallsHandler(mode, handlers, world, k) && world.wire(k).closeError.None? ==>
                    TakesBothWays(FindHandler(handlers, world.wire(k).response.status).value, world.wire(k).response))
  {
    hide DecideStatus, FindHandler, RunHandler, AllMarking, TakesBothWays;
    if world.wire(k).Answers? {
      WrappingCommutes(handlers, world.wire(k).response, None);
    }
  }

  lemma Regrouped(a: seq<Step>, b: seq<Step>, c: seq<Step>, d: seq<Step>)
    ensures a + b + c + d == a + (b + c + d)
  {
  }

  lemma WrappedSteps(mode: Mode, handlers: HandlerMap, a: Kwargs, b: Kwargs, world: World, k: nat, now: real)
    requires a.(traceContext := None) == b.(traceContext := None)
    ensures Erased(BaseAttempt(mode, AllMarking(handlers), a, world, k, now).steps)
         == Erased(BaseAttempt(mode, handlers, b, world, k, now).steps)
  {
    hide Erased, StatusNotices, HandlerCalls, BaseAttempt, AllMarking, SentKwargs;
    AttemptShape(mode, AllMarking(handlers), a, world, k, now);
    AttemptShape(mode, handlers, b, world, k, now);
    WrappedCalls(mode, handlers, world, k);
    var sent, sent' := [Send(k, SentKwargs(mode, a), now)], [Send(k, SentKwargs(mode, b), now)];
    var middle := StatusNotices(mode, world, k) + HandlerCalls(mode, handlers, world, k);
    var rest := [Open(k)] + middle + [Close(k)];
    Regrouped(sent, [Open(k)], middle, [Close(k)]);
    Regrouped(sent', [Open(k)], middle, [Close(k)]);
    ErasedSend(k, mode, a, b, now, if world.wire(k).Fails? then middle else rest);
  }

  /** One attempt under any sink has the steps of the plain attempt, metrics apart, for wrapping the handlers commutes with
      the exact, range and wildcard lookup; and it has the same outcome exactly when it is handled alike. */
  lemma AttemptIsTransparentIff(job: Job, mode: Mode, sink: Sink, world: World, k: nat, now: real)
    ensures var plain, instrumented := Attempt(job, mode, Noop, world, k, now), Attempt(job, mode, sink, world, k, now);
            && Erased(instrumented.steps) == Erased(plain.steps)
            && (instrumented.outcome == plain.outcome <==> HandledAlike(job, mode, sink, world, k))
  {
    hide Erased, BaseAttempt, Reported, AllMarking, CallsHandler, TakesBothWays;
    if sink.Recording? {
      var handlers, kwargs := AllMarking(job.handlers), TracedKwargs(job, sink);
      ErasedReported(sink.lifecycle, AttemptLabels(job, sink.resolve), BaseAttempt(mode, handlers, kwargs, world, k, now));
      WrappedOutcome(mode, job.handlers, kwargs, job.kwargs, world, k, now);
      WrappedSteps(mode, job.handlers, kwargs, job.kwargs, world, k, now);
    }
  }

  /** The call as the plain client makes it. */
  function Plain(c: Call): Call {
    c.(sink := Noop)
  }

  predicate AlikeAt(c: Call, k: nat) {
    HandledAlike(c.job, ModeAt(c, k), c.sink, c.world, k)
  }

  /** Up to its first attempt that is not handled alike, a run keeps the plain client's clock. */
  lemma {:induction false} SameClock(c: Call, k: nat)
    requires 1 <= k && forall i :: 1 <= i < k ==> AlikeAt(c, i)
    ensures SentAt(c, k) == SentAt(Plain(c), k)
    ensures AlikeAt(c, k) ==> JudgedAt(c, k) == JudgedAt(Plain(c), k)
  {
    hide Attempt, Judge, HandledAlike;
    if k > 1 { SameClock(c, k - 1); }
    AttemptIsTransparentIff(c.job, ModeAt(c, k), c.sink, c.world, k, SentAt(c, k));
  }

  lemma RoundIsTransparent(c: Call, k: nat)
    requires 1 <= k && forall i :: 1 <= i <= k ==> AlikeAt(c, i)
    ensures var a, b := RoundAt(c, k), RoundAt(Plain(c), k);
            Erased(a.steps) == Erased(b.steps) && a.Last? == b.Last? && (a.Last? ==> a.outcome == b.outcome)
  {
    hide Attempt, JudgedAt, SentAt, Erased, AlikeAt;
    SameClock(c, k);
    AttemptIsTransparentIff(c.job, ModeAt(c, k), c.sink, c.world, k, SentAt(c, k));
    var steps, plain, judged := AttemptAt(c, k).steps, AttemptAt(Plain(c), k).steps, JudgedAt(c, k);
    var after := match judged.verdict
      case Stop(_) => judged.notices
      case Again(event) => [Event(event), Sleep(k, event.delay)];
    ErasedConcat(steps, after);
    ErasedConcat(plain, after);
  }

  lemma {:induction false} RunFromIsTransparent(c: Call, k: nat)
    requires ValidCall(c) && 1 <= k <= LastAttempt(Plain(c), 1) && LastAttempt(Plain(c), k) == LastAttempt(Plain(c), 1)
    requires forall i :: 1 <= i <= Attempts(Plain(c)) ==> AlikeAt(c, i)
    ensures Erased(RunFrom(c, k).steps) == Erased(RunFrom(Plain(c), k).steps)
    ensures RunFrom(c, k).outcome == RunFrom(Plain(c), k).outcome
    decreases c.policy.maxAttempts - k
  {
    hide RoundAt, Erased, AlikeAt;
    RoundIsTransparent(c, k);
    if RoundAt(c, k).More? {
      RunFromIsTransparent(c, k + 1);
      ErasedConcat(RoundAt(c, k).steps, RunFrom(c, k + 1).steps);
      ErasedConcat(RoundAt(Plain(c), k).steps, RunFrom(Plain(c), k + 1).steps);
    }
  }

  /** A whole run under any sink has the result, sends, events, sleeps and times of the plain client's, if every attempt
      of that one is handled alike. */
  lemma InstrumentationIsTransparent(c: Call)
    requires ValidCall(c)
    requires forall k :: 1 <= k <= Attempts(Plain(c)) ==> AlikeAt(c, k)
    ensures Erased(Run(c).steps) == Erased(Run(Plain(c)).steps)
    ensures Run(c).outcome == Run(Plain(c)).outcome
  {
    hide RunFrom, Erased, AlikeAt, RoundAt;
    RunFromIsTransparent(c, 1);
  }

  // ---- when a difference shows -------------------------------------------------------------------------------------

  /** What can be seen of a run, or of the rest of one. */
  function Shown(r: RunResult): RunResult {
    RunResult(Erased(r.steps), r.outcome)
  }

  /** What a handler makes of an attempt. */
  predicate FromHandler(out: Outcome) {
    if out.Returned? then out.value.UserValue? else out.thrown.Genuine?
  }

  /** With a strategy that always gives a delay, what follows an attempt names the outcome of its handler. */
  lemma JudgedFromHandler(c: Call, k: nat)
    requires ValidCall(c) && SteadyBackoff(c) && 1 <= k <= c.policy.maxAttempts && FromHandler(AttemptAt(c, k).outcome)
    ensures var out, j := AttemptAt(c, k).outcome, JudgedAt(c, k);
            match j.verdict
            case Stop(final) =>
              final == out && |j.notices| <= 1
              && (j.notices != [] ==> j.notices[0].Event? && j.notices[0].event.kind != Scheduled)
            case Again(event) => out.Raised? && event.kind == Scheduled && event.context.exception == Some(out.thrown.exn)
  {
    hide SentAt, Attempt, GetDelay, SteadyBackoff, MatchesOutcome;
    var out := AttemptAt(c, k).outcome;
    if out.Raised? && k < c.policy.maxAttempts {
      DelayIsKnownIff(c, ContextAt(c, k).(exception := Some(out.thrown.exn)), None, k, SentAt(c, k));
    }
  }

  /** What is shown after such an attempt: its terminal event, if any, and its outcome; or a scheduled event first. */
  lemma ShownAfter(c: Call, k: nat)
    requires ValidCall(c) && SteadyBackoff(c) && 1 <= k <= c.policy.maxAttempts && FromHandler(AttemptAt(c, k).outcome)
    ensures var out, shown := AttemptAt(c, k).outcome, Shown(AfterAttempt(c, k));
            if JudgedAt(c, k).verdict.Stop?
            then shown.outcome == out && |shown.steps| <= 1
                 && (shown.steps != [] ==> shown.steps[0].Event? && shown.steps[0].event.kind != Scheduled)
            else out.Raised? && |shown.steps| >= 2 && shown.steps[0].Event? && shown.steps[0].event.kind == Scheduled
                 && shown.steps[0].event.context.exception == Some(out.thrown.exn)
  {
    hide SentAt, AttemptAt, JudgedAt, Erased, AfterSleep, SteadyBackoff;
    JudgedFromHandler(c, k);
    match JudgedAt(c, k).verdict
    case Stop(_) =>
      var notices := JudgedAt(c, k).notices;
      ErasedOne(Open(k));
      if notices != [] {
        assert notices == [notices[0]];
        ErasedOne(notices[0]);
      }
    case Again(event) =>
      ErasedConcat([Event(event), Sleep(k, event.delay)], AfterSleep(c, k).steps);
      assert [Event(event), Sleep(k, event.delay)] == [Event(event)] + [Sleep(k, event.delay)];
      ErasedConcat([Event(event)], [Sleep(k, event.delay)]);
      ErasedOne(Event(event));
      ErasedOne(Sleep(k, event.delay));
  }

  lemma UnlikeIsFromHandler(c: Call, k: nat)
    requires 1 <= k && !AlikeAt(c, k)
    ensures FromHandler(AttemptAt(c, k).outcome)
  {
    hide SentAt, RunHandler, TakesBothWays;
    AttemptOutcome(c, k);
    WrappedCalls(ModeAt(c, k), c.job.handlers, c.world, k);
  }

  /** The first attempt that is not handled alike shows in what follows it. */
  lemma DifferenceShows(c: Call, k: nat)
    requires ValidCall(c) && SteadyBackoff(c) && 1 <= k <= c.policy.maxAttempts
    requires !AlikeAt(c, k) && forall i :: 1 <= i < k ==> AlikeAt(c, i)
    ensures Shown(AfterAttempt(c, k)) != Shown(AfterAttempt(Plain(c), k))
  {
    hide SentAt, Attempt, JudgedAt, Erased, AfterAttempt, AlikeAt;
    SameClock(c, k);
    UnlikeOutcomes(c, k);
    ShownAfter(c, k);
    ShownAfter(Plain(c), k);
  }

  lemma UnlikeOutcomes(c: Call, k: nat)
    requires 1 <= k && !AlikeAt(c, k) && SentAt(c, k) == SentAt(Plain(c), k)
    ensures AttemptAt(c, k).outcome != AttemptAt(Plain(c), k).outcome
    ensures FromHandler(AttemptAt(c, k).outcome) && FromHandler(AttemptAt(Plain(c), k).outcome)
    ensures Erased(AttemptAt(c, k).steps) == Erased(AttemptAt(Plain(c), k).steps)
  {
    hide SentAt, Attempt, Erased, HandledAlike;
    AttemptIsTransparentIff(c.job, ModeAt(c, k), c.sink, c.world, k, SentAt(c, k));
    UnlikeIsFromHandler(c, k);
    PlainIsFromHandler(c, k);
  }

  lemma PlainIsFromHandler(c: Call, k: nat)
    requires 1 <= k && !AlikeAt(c, k)
    ensures FromHandler(AttemptAt(Plain(c), k).outcome)
  {
    hide SentAt, RunHandler, TakesBothWays;
    AttemptOutcome(Plain(c), k);
  }

  /** A run up to attempt k, attempt k, and what follows it. */
  lemma {:induction false} RunSplitsAt(c: Call, k: nat)
    requires ValidCall(c) && 1 <= k <= c.policy.maxAttempts
    requires forall i :: 1 <= i < k ==> RoundAt(c, i).More?
    ensures var rest := AfterAttempt(c, k);
            Run(c) == rest.(steps := Rounds(c, k - 1) + (AttemptAt(c, k).steps + rest.steps))
  {
    hide RoundAt, AfterAttempt, AttemptAt;
    RunReaches(c, k);
    RunFromIsAttempt(c, k);
  }

  lemma {:induction false} RunReaches(c: Call, k: nat)
    requires ValidCall(c) && 1 <= k <= c.policy.maxAttempts
    requires forall i :: 1 <= i < k ==> RoundAt(c, i).More?
    ensures Run(c) == RunResult(Rounds(c, k - 1) + RunFrom(c, k).steps, RunFrom(c, k).outcome)
  {
    hide RoundAt;
    if k == 1 {
      assert [] + RunFrom(c, 1).steps == RunFrom(c, 1).steps;
    } else {
      RunReaches(c, k - 1);
      var before, steps := Rounds(c, k - 2), RoundAt(c, k - 1).steps;
      assert before + (steps + RunFrom(c, k).steps) == before + steps + RunFrom(c, k).steps;
    }
  }

  lemma {:induction false} RoundsAreTransparent(c: Call, n: nat)
    requires forall i :: 1 <= i <= n ==> AlikeAt(c, i)
    ensures Erased(Rounds(c, n)) == Erased(Rounds(Plain(c), n))
    ensures forall i :: 1 <= i <= n ==> RoundAt(c, i).Last? == RoundAt(Plain(c), i).Last?
  {
    hide RoundAt, Erased, AlikeAt;
    if n > 0 {
      RoundsAreTransparent(c, n - 1);
      RoundIsTransparent(c, n);
      ErasedConcat(Rounds(c, n - 1), RoundAt(c, n).steps);
      ErasedConcat(Rounds(Plain(c), n - 1), RoundAt(Plain(c), n).steps);
    }
  }

  lemma RunsDiffer(c: Call, k: nat)
    requires ValidCall(c) && SteadyBackoff(c) && 1 <= k <= Attempts(Plain(c))
    requires !AlikeAt(c, k) && forall i :: 1 <= i < k ==> AlikeAt(c, i)
    ensures Shown(Run(c)) != Shown(Run(Plain(c)))
  {
    hide RoundAt, Erased, AlikeAt, AfterAttempt, AttemptAt, Run, Rounds, Attempts, SteadyBackoff, SentAt, FromHandler;
    var p := Plain(c);
    RoundsAreTransparent(c, k - 1);
    forall i | 1 <= i < k ensures RoundAt(p, i).More? && RoundAt(c, i).More? { PlainGoesOn(c, i); }
    RunShown(c, k);
    RunShown(p, k);
    SameClock(c, k);
    UnlikeOutcomes(c, k);
    DifferenceShows(c, k);
    SamePrefix(Erased(Rounds(c, k - 1)), Erased(AttemptAt(c, k).steps), Erased(AfterAttempt(c, k).steps),
               Erased(AfterAttempt(p, k).steps));
  }

  lemma RunShown(c: Call, k: nat)
    requires ValidCall(c) && 1 <= k <= c.policy.maxAttempts
    requires forall i :: 1 <= i < k ==> RoundAt(c, i).More?
    ensures var rest := AfterAttempt(c, k);
            Shown(Run(c)) == RunResult(Erased(Rounds(c, k - 1)) + (Erased(AttemptAt(c, k).steps) + Erased(rest.steps)),
                                       rest.outcome)
  {
    hide RoundAt, Erased, AfterAttempt, AttemptAt, Run, Rounds;
    RunSplitsAt(c, k);
    var rest := AfterAttempt(c, k).steps;
    ErasedConcat(Rounds(c, k - 1), AttemptAt(c, k).steps + rest);
    ErasedConcat(AttemptAt(c, k).steps, rest);
  }

  lemma PlainGoesOn(c: Call, i: nat)
    requires ValidCall(c) && 1 <= i < Attempts(Plain(c))
    ensures RoundAt(Plain(c), i).More?
  {
    hide RoundAt;
    OnlyTheLastEnds(Plain(c), 1, i);
  }

  lemma SamePrefix<T>(x: seq<T>, y: seq<T>, a: seq<T>, b: seq<T>)
    ensures x + (y + a) == x + (y + b) ==> a == b
  {
    assert (x + (y + a))[|x| + |y|..] == a && (x + (y + b))[|x| + |y|..] == b;
  }

  lemma {:induction false} FirstUnlike(c: Call, k: nat) returns (first: nat)
    requires 1 <= k && !AlikeAt(c, k)
    ensures 1 <= first <= k && !AlikeAt(c, first) && forall i :: 1 <= i < first ==> AlikeAt(c, i)
  {
    hide AlikeAt;
    if j :| 1 <= j < k && !AlikeAt(c, j) {
      first := FirstUnlike(c, j);
    } else {
      first := k;
    }
  }

  /** With a strategy that always gives a delay, instrumentation is transparent exactly when every attempt of the plain
      client's run is handled alike. */
  lemma InstrumentationIsTransparentIff(c: Call)
    requires ValidCall(c) && SteadyBackoff(c)
    ensures Shown(Run(c)) == Shown(Run(Plain(c))) <==> forall k :: 1 <= k <= Attempts(Plain(c)) ==> AlikeAt(c, k)
  {
    hide Run, Erased, AlikeAt, Attempts, SteadyBackoff;
    if k :| 1 <= k <= Attempts(Plain(c)) && !AlikeAt(c, k) {
      var first := FirstUnlike(c, k);
      RunsDiffer(c, first);
    } else {
      InstrumentationIsTransparent(c);
    }
  }

  /** Such a client: its one handler takes the response only by position. Without metrics its requests fail, with any sink
      they succeed. */
  lemma HandlerByPositionInstance(job: Job, sink: Sink, world: World, response: HttpResponse, value: int, now: real)
    requires sink.Recording? && world.wire(1) == Answers(response, None)
    requires job.handlers == map[Wildcard := UserHandler(_ => Raise(Own(TypeError)), _ => Return(value))]
    ensures Attempt(job, Once, Noop, world, 1, now).outcome == Raised(Genuine(Own(TypeError)))
    ensures Attempt(job, Once, sink, world, 1, now).outcome == Returned(UserValue(value))
  {
  }

  // ---- observations --------------------------------------------------------------------------------------

  /** How a reported attempt should be counted, from the script alone: a cancellation; a response, when a handler was
      called or nothing went wrong; otherwise whatever the exception is. */
  function FairLabels(job: Job, mode: Mode, world: World, k: nat): (StatusLabel, OutcomeLabel, Option<ErrorLabel>) {
    match BaseAttempt(mode, AllMarking(job.handlers), job.kwargs, world, k, 0.0).outcome
    case Returned(_) => (Code(world.wire(k).response.status), Response, None)
    case Raised(thrown) =>
      var e := Unwrap(thrown);
      if IsInstance(e, CancelledError) then (NoStatus, Cancelled, Some(NoError))
      else if CallsHandler(mode, job.handlers, world, k) then
        (Code(world.wire(k).response.status), Response, Some(InvalidResponse))
      else
        var (status, outcome, error) := ClassifyFailure(e, None);
        (status, outcome, Some(error))
  }

  /** A wrapped handler always leaves its mark. */
  lemma MarkingMarks(h: Handler, response: HttpResponse)
    requires h.Marking?
    ensures RunHandler(h, response, None).1 == Some(response.status)
  {
    MarkPersists(h.inner, response, Some(response.status));
  }

  lemma {:induction false} MarkPersists(h: Handler, response: HttpResponse, mark: Option<int>)
    requires mark == Some(response.status)
    ensures CallByPosition(h, response, mark).1 == mark
  {
    match h
    case UserHandler(_, _) =>
    case Marking(inner) => MarkPersists(inner, response, mark);
  }

  lemma FoundIsMarking(handlers: HandlerMap, status: int)
    requires FindHandler(AllMarking(handlers), status).Some?
    ensures FindHandler(AllMarking(handlers), status).value.Marking?
  {
  }

  /** What an attempt reports to the sink is its fair count. */
  lemma ObservedFairly(job: Job, mode: Mode, sink: Sink, world: World, k: nat, now: real)
    requires sink.Recording?
    ensures var inner := BaseAttempt(mode, AllMarking(job.handlers), TracedKwargs(job, sink), world, k, now);
            Classify(inner.outcome, inner.mark) == FairLabels(job, mode, world, k)
  {
    hide FindHandler, RunHandler, DecideStatus, ClassifyException, AllMarking;
    match world.wire(k)
    case Fails(_, _) =>
    case Answers(response, _) =>
      WrappingCommutes(job.handlers, response, None);
      var found := FindHandler(AllMarking(job.handlers), response.status);
      if found.Some? {
        FoundIsMarking(job.handlers, response.status);
        MarkingMarks(found.value, response);
      }
  }

  /** The sink calls of attempt k. */
  function MetricsOf(c: Call, k: nat): SinkCall
    requires c.sink.Recording?
  {
    var (status, outcome, error) := FairLabels(c.job, ModeAt(c, k), c.world, k);
    Observed(AttemptLabels(c.job, c.sink.resolve), status, outcome, error)
  }

  lemma NoObservations(t: seq<Step>)
    requires Pick(t, MetricStep) == []
    ensures Observations(t) == []
  {
    if t != [] { NoObservations(t[1..]); }
  }

  lemma AttemptObservation(c: Call, k: nat)
    requires 1 <= k && c.sink.Recording?
    ensures Observations(AttemptAt(c, k).steps) == [MetricsOf(c, k)]
  {
    hide BaseAttempt, Observations, FairLabels, SentAt;
    var handlers, kwargs, mode := AllMarking(c.job.handlers), TracedKwargs(c.job, c.sink), ModeAt(c, k);
    var labels := AttemptLabels(c.job, c.sink.resolve);
    var inner := BaseAttempt(mode, handlers, kwargs, c.world, k, SentAt(c, k));
    PickBase(mode, handlers, kwargs, c.world, k, SentAt(c, k), MetricStep);
    NoObservations(inner.steps);
    ObservedFairly(c.job, mode, c.sink, c.world, k, SentAt(c, k));
    var started := if c.sink.lifecycle then [Metric(Started(labels))] else [];
    var ended := if c.sink.lifecycle then [Metric(Ended(labels))] else [];
    var observed := [Observation(labels, inner.outcome, inner.mark)];
    ObservationsConcat(started, inner.steps);
    ObservationsConcat(started + inner.steps, ended);
    ObservationsConcat(started + inner.steps + ended, observed);
    ObservationsOne(Metric(Started(labels)));
    ObservationsOne(Metric(Ended(labels)));
    ObservationsOne(observed[0]);
  }

  lemma ObservationsOne(s: Step)
    ensures Observations([s]) == (if s.Metric? && s.call.Observed? then [s.call] else []) && Observations([]) == []
  {
    assert [s][1..] == [];
  }

  lemma RoundObservation(c: Call, k: nat)
    requires 1 <= k && c.sink.Recording?
    ensures Observations(RoundAt(c, k).steps) == [MetricsOf(c, k)]
  {
    hide AttemptAt, SentAt, JudgedAt, MetricsOf, Observations;
    AttemptObservation(c, k);
    NoticesShape(c, k);
    var steps, judged := AttemptAt(c, k).steps, JudgedAt(c, k);
    match judged.verdict
    case Stop(_) =>
      ObservationsConcat(steps, judged.notices);
      if judged.notices == [] {
        ObservationsOne(Open(k));
      } else {
        assert judged.notices == [judged.notices[0]];
        ObservationsOne(judged.notices[0]);
      }
    case Again(event) =>
      assert [Event(event), Sleep(k, event.delay)] == [Event(event)] + [Sleep(k, event.delay)];
      ObservationsConcat(steps, [Event(event), Sleep(k, event.delay)]);
      ObservationsConcat([Event(event)], [Sleep(k, event.delay)]);
      ObservationsOne(Event(event));
      ObservationsOne(Sleep(k, event.delay));
  }

  lemma {:induction false} RoundsObservations(c: Call, n: nat)
    requires c.sink.Recording?
    ensures Observations(Rounds(c, n)) == seq(n, i requires 0 <= i < n => MetricsOf(c, i + 1))
  {
    hide RoundAt, MetricsOf, Observations;
    if n == 0 {
      ObservationsOne(Open(0));
    } else {
      RoundsObservations(c, n - 1);
      RoundObservation(c, n);
      ObservationsConcat(Rounds(c, n - 1), RoundAt(c, n).steps);
    }
  }

  /** The observations of a run are the fair counts of its physical attempts, one each, in order. */
  lemma ObservationsAreTheAttempts(c: Call)
    requires ValidCall(c) && c.sink.Recording?
    ensures var seen := Observations(Run(c).steps);
            |seen| == |Pick(Run(c).steps, SendStep)| == Attempts(c)
            && forall i :: 0 <= i < |seen| ==> seen[i] == MetricsOf(c, i + 1)
  {
    hide Run, Attempts, RoundAt, MetricsOf, Observations, Pick;
    RunIsItsRounds(c);
    RoundsObservations(c, Attempts(c));
    SendsAreTheAttempts(c);
  }

  lemma FairLabelsAreSound(c: Call, k: nat)
    requires c.sink.Recording?
    ensures Sound(MetricsOf(c, k))
  {
  }

  /** What attempt k is reported as: with the client's name, the method and URL of the call, the route that the resolver
      makes of it, the operation named by the caller or else that route, and its fair count. */
  lemma ReportedLabels(c: Call, k: nat)
    requires c.sink.Recording?
    ensures var o, route, fair := MetricsOf(c, k), c.sink.resolve(c.job.url), FairLabels(c.job, ModeAt(c, k), c.world, k);
            && o.Observed? && (o.status, o.outcome, o.error) == fair
            && o.labels.client == c.job.clientName && o.labels.verb == c.job.verb && o.labels.route == route
            && o.labels.operation == match c.job.operation
                                     case None => route
                                     case Some(name) => if name == "" then route else name
  {
    hide FairLabels;
  }

  /** How many of the first n attempts are reported so. */
  function AttemptsReported(c: Call, n: nat, p: SinkCall -> bool): nat
    requires c.sink.Recording?
  {
    if n == 0 then 0 else AttemptsReported(c, n - 1, p) + if p(MetricsOf(c, n)) then 1 else 0
  }

  lemma {:induction false} HowManyConcat(a: seq<SinkCall>, b: seq<SinkCall>, p: SinkCall -> bool)
    ensures HowMany(a + b, p) == HowMany(a, p) + HowMany(b, p)
  {
    if a == [] {
      assert a + b == b;
    } else {
      assert (a + b)[1..] == a[1..] + b;
      HowManyConcat(a[1..], b, p);
    }
  }

  lemma {:induction false} HowManyAttempts(c: Call, calls: seq<SinkCall>, p: SinkCall -> bool)
    requires c.sink.Recording? && forall i :: 0 <= i < |calls| ==> calls[i] == MetricsOf(c, i + 1)
    ensures HowMany(calls, p) == AttemptsReported(c, |calls|, p)
  {
    hide MetricsOf;
    if calls != [] {
      var last := calls[|calls| - 1];
      HowManyAttempts(c, calls[..|calls| - 1], p);
      assert calls == calls[..|calls| - 1] + [last];
      HowManyConcat(calls[..|calls| - 1], [last], p);
      assert [last][1..] == [];
    }
  }

  /** After a run every counter holds, for each tuple of labels, the number of attempts that are reported with them. */
  lemma CountersAreTheAttempts(c: Call, labels: Labels, status: StatusLabel, outcome: OutcomeLabel, error: ErrorLabel)
    requires ValidCall(c) && c.sink.Recording? && error != NoError
    ensures var after, n := AppliedAll(ZERO, Run(c).steps), |Pick(Run(c).steps, SendStep)|;
            && after.requests[RequestKey(labels, status, outcome)]
               == AttemptsReported(c, n, ReportsOutcome(labels, status, outcome))
            && after.errors[ErrorKey(labels, error)] == AttemptsReported(c, n, ReportsError(labels, error))
            && after.latency[LatencyKey(labels, true)] == AttemptsReported(c, n, ReportsResponse(labels, true))
  {
    hide Run, Attempts, MetricsOf, Observations, Pick, AppliedAll, HowMany, AttemptsReported;
    var t := Run(c).steps;
    ObservationsAreTheAttempts(c);
    CountsByLabels(ZERO, t, labels, status, outcome, error, true);
    HowManyAttempts(c, Observations(t), ReportsOutcome(labels, status, outcome));
    HowManyAttempts(c, Observations(t), ReportsError(labels, error));
    HowManyAttempts(c, Observations(t), ReportsResponse(labels, true));
  }

  /** The sink calls of an attempt: when it has both hooks, a start before everything else and an end after it, with the
      same labels; then one observation, which is the last step and carries them too; and no other. */
  lemma HooksSurround(job: Job, mode: Mode, sink: Sink, world: World, k: nat, now: real)
    requires sink.Recording?
    ensures var t, inner := Attempt(job, mode, sink, world, k, now).steps,
                            BaseAttempt(mode, AllMarking(job.handlers), TracedKwargs(job, sink), world, k, now).steps;
            && t != [] && t[|t| - 1].Metric? && t[|t| - 1].call.Observed?
            && var labels, fair := t[|t| - 1].call.labels, FairLabels(job, mode, world, k);
            && t[|t| - 1].call == Observed(labels, fair.0, fair.1, fair.2)
            && t == (if sink.lifecycle then [Metric(Started(labels))] else []) + inner
                    + (if sink.lifecycle then [Metric(Ended(labels))] else []) + [t[|t| - 1]]
            && (forall s :: s in inner ==> !s.Metric?)
            && labels.client == job.clientName && labels.verb == job.verb && labels.route == sink.resolve(job.url)
  {
    hide BaseAttempt, FairLabels;
    ObservedFairly(job, mode, sink, world, k, now);
    PickBase(mode, AllMarking(job.handlers), TracedKwargs(job, sink), world, k, now, MetricStep);
    var inner := BaseAttempt(mode, AllMarking(job.handlers), TracedKwargs(job, sink), world, k, now).steps;
    NoneOfKind(inner, MetricStep);
  }

  lemma {:induction false} NoneOfKind(t: seq<Step>, kind: StepKind)
    requires Pick(t, kind) == []
    ensures forall s :: s in t ==> KindOfStep(s) != kind
  {
    if t != [] { NoneOfKind(t[1..], kind); }
  }

  /** Conservation: after any run requests_total is the number of physical attempts; the histogram has as many
      observations, and for each label tuple as many responses as the counter; and every attempt is a success, a
      cancellation or an error. */
  lemma MetricsConservation(c: Call, labels: Labels)
    requires ValidCall(c) && c.sink.Recording?
    ensures var after, seen := AppliedAll(ZERO, Run(c).steps), Observations(Run(c).steps);
            && |after.requests| == |Pick(Run(c).steps, SendStep)|
            && |after.latency| == |after.requests|
            && CountIf(after.requests, ResponseRequests(labels)) == after.latency[LatencyKey(labels, true)]
            && |after.requests| == Tally(seen, Succeeded) + CountIf(after.requests, HasOutcome(Cancelled)) + |after.errors|
  {
    hide Run, Attempts, MetricsOf, Observations, Pick, AppliedAll, Tally, CountIf;
    var t := Run(c).steps;
    ObservationsAreTheAttempts(c);
    forall o | o in Observations(t) ensures Sound(o) {
      var i :| 0 <= i < |Observations(t)| && Observations(t)[i] == o;
      FairLabelsAreSound(c, i + 1);
    }
    TraceCounts(ZERO, t, labels);
    CountIfNothing(HasOutcome(Cancelled));
    CountIfNothing(ResponseRequests(labels));
    TallyIsExhaustive(Observations(t));
  }

  /** A reported attempt that got a response and failed without being cancelled is counted as a response (never as a
      transport error) iff a handler was called; or it failed for want of one and the status is not zero; or releasing the
      response raised, and that error carries a status of its own. */
  lemma HandlingFailureIsAResponse(job: Job, mode: Mode, world: World, k: nat)
    requires world.wire(k).Answers?
    requires var out := BaseAttempt(mode, AllMarking(job.handlers), job.kwargs, world, k, 0.0).outcome;
             out.Raised? && !IsInstance(Unwrap(out.thrown), CancelledError)
    ensures var status, closeError := world.wire(k).response.status, world.wire(k).closeError;
            FairLabels(job, mode, world, k).1 == Response
            <==> || CallsHandler(mode, job.handlers, world, k)
                 || (if closeError.None? then status != 0
                     else Or(closeError.value.status, closeError.value.statusCode).Some?)
  {
    WrappedCalls(mode, job.handlers, world, k);
  }

  /** Such an attempt: a response of status 0 and no handlers at all. */
  lemma StatusZeroInstance(job: Job, world: World, k: nat)
    requires job.handlers == map[] && world.wire(k) == Answers(HttpResponse(0, None, k), None)
    ensures FairLabels(job, Once, world, k) == (NoStatus, NetworkError, Some(OtherError))
  {
    hide ClassifyFailure, SentKwargs, ThroughStack, RunHandler;
    UnhandledZero();
  }

  /** Another: no handler for a 404, and a connection error when the response is released. */
  lemma ReleaseErrorInstance(job: Job, world: World, k: nat, e: Exn)
    requires job.handlers == map[] && world.wire(k) == Answers(HttpResponse(404, None, k), Some(e))
    requires e.classes == {ClientOSError, ClientConnectionError, Exception} && e.status.None? && e.statusCode.None?
    ensures FairLabels(job, Once, world, k).1 == NetworkError
  {
    hide ClassifyFailure, SentKwargs, ThroughStack, RunHandler;
    ConnectionErrorIsTransport(e);
  }

  lemma ConnectionErrorIsTransport(e: Exn)
    requires e.classes == {ClientOSError, ClientConnectionError, Exception} && e.status.None? && e.statusCode.None?
    ensures ClassifyFailure(e, None).1 == NetworkError && !IsInstance(e, CancelledError)
  {
    hide IsInstanceOfAny;
    AnyOfPair(e, ServerTimeoutError, TimeoutError);
  }

  lemma UnhandledZero()
    ensures ClassifyFailure(UnhandledStatusError(0), None) == (NoStatus, NetworkError, OtherError)
  {
    hide IsInstanceOfAny;
    var e := UnhandledStatusError(0);
    AnyOfPair(e, ServerTimeoutError, TimeoutError);
    AnyOfThree(e, ClientConnectorSSLError, ClientConnectorCertificateError, ClientSSLError);
  }
}
