/** Any number of requests in flight on one client and one sink, interleaved at their awaits, while metrics are switched
    on and off at will. */
module Interleaving {
  import opened Wrappers
  import opened Exceptions
  import opened Retry
  import opened Handlers
  import opened Engine
  import opened RunProperties
  import opened RunEvents
  import opened Metrics
  import opened Instrumentation
  import Client

  // ---- one task between its awaits -------------------------------------------------------------------------

  /** One call of _make_req on the plain client, with its retry policy or with `retry=None`; the sink it reports to is the
      shared one. */
  datatype Task = Task(call: Call, retried: bool)

  ghost predicate IsTask(t: Task, sink: Sink) {
    (t.retried ==> ValidCall(t.call)) && t.call.sink.Noop? && sink.Recording?
  }

  /** What enable_metrics makes an attempt see qualifies for any sink but the no-op one. */
  lemma EnabledSinksQualify(t: Task, sink: Client.SinkObject, resolve: string -> string)
    requires (t.retried ==> ValidCall(t.call)) && t.call.sink.Noop?
    ensures IsTask(t, Client.Enabled(sink, resolve)) <==> sink.UserSink?
    ensures sink.UserSink? ==> Client.Enabled(sink, resolve).lifecycle == Client.DetectLifecycle(sink)
  {
  }

  /** How many attempts a task may make. */
  function Budget(t: Task): int {
    if t.retried then t.call.policy.maxAttempts else 1
  }

  function ModeOf(t: Task, k: nat): Mode {
    if t.retried then ModeAt(t.call, k) else Once
  }

  /** Where a task is suspended. `reported` is whether its current attempt began with metrics on. */
  datatype Pc =
    | Ready(k: nat, now: real)
    | Awaiting(k: nat, now: real, reported: bool)
    | Handling(k: nat, now: real, reported: bool, handler: Handler, response: HttpResponse)
    | Releasing(k: nat, now: real, reported: bool, outcome: Outcome, mark: Option<int>)
    | Asleep(k: nat, now: real, delay: real)
    | Finished(outcome: Outcome)

  datatype Progress = Progress(pc: Pc, steps: seq<Step>)

  function HandlersOf(t: Task, reported: bool): HandlerMap {
    if reported then AllMarking(t.call.job.handlers) else t.call.job.handlers
  }

  /** The private signal to the loop speaks of the attempt it comes from, and only below the limit. */
  predicate IsOutcomeOf(t: Task, k: nat, outcome: Outcome) {
    outcome.Returned? && outcome.value.Retryable? ==>
      t.retried && outcome.value.context.attempt == k < t.call.policy.maxAttempts
  }

  /** A place a task can be in. */
  predicate Placed(t: Task, pc: Pc) {
    pc.Finished?
    || (&& 1 <= pc.k <= Budget(t)
        && (pc.Asleep? ==> pc.k < Budget(t)) && (pc.Releasing? ==> IsOutcomeOf(t, pc.k, pc.outcome)))
  }

  /** What is made of an attempt's outcome: by the retry loop, or by nothing at all. */
  function Judged(t: Task, k: nat, now: real, outcome: Outcome): (j: Judgement)
    requires k >= 1 && IsOutcomeOf(t, k, outcome)
  {
    if t.retried then Judge(t.call.policy, ContextAt(t.call, k), outcome, SurroundingsAt(t.call, k, now))
    else Judgement([], Stop(outcome))
  }

  /** The end of an attempt: the report, which reads the lifecycle flag again, and the loop's decision. */
  function Conclude(t: Task, sink: Sink, on: bool, k: nat, now: real, reported: bool, outcome: Outcome, mark: Option<int>)
    : Progress
    requires sink.Recording? && k >= 1 && IsOutcomeOf(t, k, outcome)
  {
    var report := Report(AttemptLabels(t.call.job, sink.resolve), sink.lifecycle && on, reported, outcome, mark);
    var judged := Judged(t, k, now, outcome);
    match judged.verdict
    case Stop(final) => Progress(Finished(final), report + judged.notices)
    case Again(event) => Progress(Asleep(k, now, event.delay), report + [Event(event), Sleep(k, event.delay)])
  }

  function Report(labels: Labels, lifecycle: bool, reported: bool, outcome: Outcome, mark: Option<int>): seq<Step> {
    if !reported then [] else (if lifecycle then [Metric(Ended(labels))] else []) + [Observation(labels, outcome, mark)]
  }

  /** The hook before an attempt, and its send. */
  function Departure(t: Task, sink: Sink, on: bool, k: nat, now: real): seq<Step>
    requires sink.Recording?
  {
    (if sink.lifecycle && on then [Metric(Started(AttemptLabels(t.call.job, sink.resolve)))] else [])
    + [Send(k, SentKwargs(ModeOf(t, k), if on then TracedKwargs(t.call.job, sink) else t.call.job.kwargs), now)]
  }

  /** A response has arrived: the loop is told to retry, there is no handler, or one is called. */
  function Arrival(t: Task, k: nat, now: real, reported: bool, response: HttpResponse): Progress {
    var context := StatusContext(ContextAt(t.call, k), response.status);
    match DecideStatus(ModeOf(t, k), response.status)
    case RetryIt =>
      Progress(Releasing(k, now, reported, Returned(Retryable(context, response.retryAfter)), None), [Open(k), Close(k)])
    case decision =>
      var notices := if decision.Announce?
                     then [Event(RetryEvent(KindOf(decision.reason), context, 0.0, decision.reason))] else [];
      match FindHandler(HandlersOf(t, reported), response.status)
      case None =>
        Progress(Releasing(k, now, reported, Raised(Genuine(UnhandledStatusError(response.status))), None),
                 [Open(k)] + notices + [Close(k)])
      case Some(handler) =>
        Progress(Handling(k, now, reported, handler, response), [Open(k)] + notices + [Handle(k, response.status)])
  }

  /** What a handler's result makes of an attempt. */
  function ResultOutcome(result: HandlerResult): Outcome {
    match result
    case Return(v) => Returned(UserValue(v))
    case Raise(e) => Raised(Genuine(e))
  }

  function Released(t: Task, k: nat, outcome: Outcome): Outcome {
    if t.call.world.wire(k).Answers? && t.call.world.wire(k).closeError.Some?
    then Raised(Genuine(t.call.world.wire(k).closeError.value)) else outcome
  }

  /** What a task does from one await to the next. */
  function Advance(t: Task, sink: Sink, on: bool, pc: Pc): Progress
    requires sink.Recording? && Placed(t, pc)
  {
    match pc
    case Finished(_) => Progress(pc, [])
    case Ready(k, now) => Progress(Awaiting(k, now, on), Departure(t, sink, on, k, now))
    case Awaiting(k, now, reported) =>
      (match t.call.world.wire(k)
       case Fails(e, inStack) =>
         Conclude(t, sink, on, k, now, reported, Raised(ThroughStack(ModeOf(t, k), e, inStack)), None)
       case Answers(response, _) => Arrival(t, k, now, reported, response))
    case Handling(k, now, reported, handler, response) =>
      var (result, mark) := RunHandler(handler, response, None);
      Progress(Releasing(k, now, reported, ResultOutcome(result), mark), [Close(k)])
    case Releasing(k, now, reported, outcome, mark) =>
      Conclude(t, sink, on, k, now, reported, Released(t, k, outcome), mark)
    case Asleep(k, now, delay) =>
      match t.call.world.asleep(k)
      case Some(e) => Progress(Finished(Raised(Genuine(e))), [])
      case None => Progress(Ready(k + 1, now + t.call.world.took(k) + delay + t.call.world.late(k)), [])
  }

  /** The physical request that a task sends has the task's own arguments, with the trace context of the sink when metrics
      are on as it leaves, and without one of the client's otherwise. */
  lemma AdvanceSends(t: Task, sink: Sink, on: bool, pc: Pc)
    requires sink.Recording? && Placed(t, pc) && pc.Ready?
    ensures var steps := Advance(t, sink, on, pc).steps;
            && steps != [] && var send := steps[|steps| - 1];
            && send.Send? && send.attempt == pc.k && send.at == pc.now
            && IsSentFor(t.call.job, if on then sink else Noop, t.retried, send.kwargs)
  {
    assert [] + t.call.job.kwargs.middlewares == t.call.job.kwargs.middlewares;
  }

  /** An advance leads from a place to a place, closer to the end. */
  lemma AdvanceMakesProgress(t: Task, sink: Sink, on: bool, pc: Pc)
    requires IsTask(t, sink) && Placed(t, pc)
    ensures var next := Advance(t, sink, on, pc).pc;
            && Placed(t, next)
            && if pc.Finished? then next == pc else 0 <= Rank(t, next) < Rank(t, pc) <= 5 * Budget(t)
  {
    hide Departure, Report, Judged, FindHandler, RunHandler;
    if pc.Awaiting? {
      if t.call.world.wire(pc.k).Fails? {
        var wire := t.call.world.wire(pc.k);
        AgainIsBelowLimit(t, pc.k, pc.now, Raised(ThroughStack(ModeOf(t, pc.k), wire.exn, wire.inStack)));
      } else {
        ArrivalIsPlaced(t, pc);
      }
    } else if pc.Releasing? {
      AgainIsBelowLimit(t, pc.k, pc.now, Released(t, pc.k, pc.outcome));
    }
  }

  lemma AgainIsBelowLimit(t: Task, k: nat, now: real, outcome: Outcome)
    requires k >= 1 && IsOutcomeOf(t, k, outcome)
    ensures Judged(t, k, now, outcome).verdict.Again? ==> t.retried && k < t.call.policy.maxAttempts
  {
    hide GetDelay, MatchesOutcome;
  }

  lemma ArrivalIsPlaced(t: Task, pc: Pc)
    requires Placed(t, pc) && pc.Awaiting? && t.call.world.wire(pc.k).Answers?
    ensures var next := Arrival(t, pc.k, pc.now, pc.reported, t.call.world.wire(pc.k).response).pc;
            Placed(t, next) && next.k == pc.k && (next.Handling? || next.Releasing?)
  {
    hide FindHandler, MatchesOutcome;
  }

  function Rank(t: Task, pc: Pc): int {
    match pc
    case Ready(k, _) => 5 * (Budget(t) - k) + 5
    case Awaiting(k, _, _) => 5 * (Budget(t) - k) + 4
    case Handling(k, _, _, _, _) => 5 * (Budget(t) - k) + 3
    case Releasing(k, _, _, _, _) => 5 * (Budget(t) - k) + 2
    case Asleep(k, _, _) => 5 * (Budget(t) - k) + 1
    case Finished(_) => 0
  }

  // ---- all tasks together --------------------------------------------------------------------------------------

  /** The tasks, and the sink that metrics are switched to. */
  datatype Setup = Setup(tasks: seq<Task>, sink: Sink)

  ghost predicate ValidSetup(u: Setup) {
    u.sink.Recording? && forall i :: 0 <= i < |u.tasks| ==> IsTask(u.tasks[i], u.sink)
  }

  /** The shared state: metrics on or off, each task's place and trace, the sink's counters, and the labels of the
      counted attempts that ended while metrics were off. */
  datatype Shared = Shared(on: bool, pcs: seq<Pc>, traces: seq<seq<Step>>, counters: Counters, orphans: multiset<Labels>)

  /** A scheduler's choice: let task i run to its next await, or call enable_metrics with the sink of the setup, or
      disable_metrics. */
  datatype Move = Resume(i: nat) | Switch(on: bool)

  function LabelsOf(u: Setup, i: nat): Labels
    requires i < |u.tasks| && u.sink.Recording?
  {
    AttemptLabels(u.tasks[i].call.job, u.sink.resolve)
  }

  /** An attempt between its hooks that was counted in. */
  predicate Flying(pc: Pc) {
    (pc.Awaiting? || pc.Handling? || pc.Releasing?) && pc.reported
  }

  ghost predicate Invariant(u: Setup, s: Shared) {
    |s.pcs| == |s.traces| == |u.tasks| && forall i :: 0 <= i < |u.tasks| ==> Placed(u.tasks[i], s.pcs[i])
  }

  function Initial(u: Setup, on: bool): Shared {
    Shared(on, seq(|u.tasks|, i requires 0 <= i < |u.tasks| => Ready(1, u.tasks[i].call.start)),
           seq(|u.tasks|, i => []), ZERO, multiset{})
  }

  /** One move. Resuming a task that does not exist or is finished changes nothing. */
  ghost function Moved(u: Setup, s: Shared, m: Move): Shared
    requires ValidSetup(u) && Invariant(u, s)
  {
    match m
    case Switch(on) => s.(on := on)
    case Resume(i) =>
      if i >= |u.tasks| then s
      else
        var done := Advance(u.tasks[i], u.sink, s.on, s.pcs[i]);
        var lands := Flying(s.pcs[i]) && !Flying(done.pc);
        s.(pcs := s.pcs[i := done.pc],
           traces := s.traces[i := s.traces[i] + done.steps],
           counters := AppliedAll(s.counters, done.steps),
           orphans := s.orphans + (if lands && !s.on then multiset{LabelsOf(u, i)} else multiset{}))
  }

  lemma MoveKeepsInvariant(u: Setup, s: Shared, m: Move)
    requires ValidSetup(u) && Invariant(u, s)
    ensures Invariant(u, Moved(u, s, m))
  {
    hide Placed, Advance, AppliedAll, Rank;
    if m.Resume? && m.i < |u.tasks| {
      AdvanceMakesProgress(u.tasks[m.i], u.sink, s.on, s.pcs[m.i]);
    }
  }

  /** The state after a schedule. */
  ghost function After(u: Setup, on: bool, moves: seq<Move>): (s: Shared)
    requires ValidSetup(u)
    ensures Invariant(u, s)
  {
    if moves == [] then Initial(u, on)
    else
      var before := After(u, on, moves[..|moves| - 1]);
      MoveKeepsInvariant(u, before, moves[|moves| - 1]);
      Moved(u, before, moves[|moves| - 1])
  }

  /** How often a schedule resumes task i. */
  function Resumes(moves: seq<Move>, i: nat): nat {
    if moves == [] then 0
    else Resumes(moves[..|moves| - 1], i) + if moves[|moves| - 1] == Resume(i) then 1 else 0
  }

  lemma {:induction false} RankFalls(u: Setup, on: bool, moves: seq<Move>, i: nat)
    requires ValidSetup(u) && i < |u.tasks|
    ensures var t, pc := u.tasks[i], After(u, on, moves).pcs[i];
            pc.Finished? || 0 < Rank(t, pc) <= 5 * Budget(t) - Resumes(moves, i)
  {
    hide AppliedAll, Advance, Rank, Placed, Budget;
    var t := u.tasks[i];
    if moves == [] {
      StartsAtTop(t, u.sink);
    } else {
      var before, m := After(u, on, moves[..|moves| - 1]), moves[|moves| - 1];
      RankFalls(u, on, moves[..|moves| - 1], i);
      if m == Resume(i) {
        AdvanceMakesProgress(t, u.sink, before.on, before.pcs[i]);
        PlacedHasRank(t, Advance(t, u.sink, before.on, before.pcs[i]).pc);
      }
    }
  }

  lemma StartsAtTop(t: Task, sink: Sink)
    requires IsTask(t, sink)
    ensures Rank(t, Ready(1, t.call.start)) == 5 * Budget(t) > 0
  {
  }

  lemma PlacedHasRank(t: Task, pc: Pc)
    requires Placed(t, pc)
    ensures pc.Finished? || Rank(t, pc) > 0
  {
  }

  /** Under every schedule, whatever the other tasks do and however metrics are switched, a task that is resumed five
      times for each allowed attempt has finished. */
  lemma TasksFinish(u: Setup, on: bool, moves: seq<Move>, i: nat)
    requires ValidSetup(u) && i < |u.tasks|
    requires Resumes(moves, i) >= 5 * Budget(u.tasks[i])
    ensures After(u, on, moves).pcs[i].Finished?
  {
    hide After, Rank, Resumes;
    RankFalls(u, on, moves, i);
  }

  // ---- what is left of the sequential run --------------------------------------------------------------------

  /** Attempt k of a task made alone on the plain client. */
  function AttemptOf(t: Task, k: nat): AttemptRun
    requires k >= 1
  {
    Attempt(t.call.job, ModeOf(t, k), t.call.sink, t.call.world, k, SentOf(t, k))
  }

  function SentOf(t: Task, k: nat): real
    requires k >= 1
  {
    if t.retried then SentAt(t.call, k) else t.call.start
  }

  /** The task's run from attempt k on, alone on the plain client. */
  function RunOf(t: Task, k: nat): RunResult
    requires (t.retried ==> ValidCall(t.call)) && 1 <= k <= Budget(t)
  {
    if t.retried then RunFrom(t.call, k) else RunResult(AttemptOf(t, k).steps, AttemptOf(t, k).outcome)
  }

  /** What a task does alone on the plain client. */
  function Alone(t: Task): RunResult
    requires t.retried ==> ValidCall(t.call)
  {
    RunOf(t, 1)
  }

  lemma AloneIsTheRun(t: Task)
    requires t.retried ==> ValidCall(t.call)
    ensures t.retried ==> Alone(t) == Run(t.call)
    ensures !t.retried ==> Alone(t) == RunResult(AttemptOf(t, 1).steps, AttemptOf(t, 1).outcome)
  {
  }

  function AfterNap(t: Task, k: nat): RunResult
    requires t.retried && ValidCall(t.call) && 1 <= k < Budget(t)
  {
    AfterSleep(t.call, k)
  }

  function AfterAttemptOf(t: Task, k: nat): RunResult
    requires (t.retried ==> ValidCall(t.call)) && 1 <= k <= Budget(t)
  {
    if t.retried then AfterAttempt(t.call, k) else RunResult([], AttemptOf(t, k).outcome)
  }

  /** The steps of an attempt after its send. */
  function AfterSend(t: Task, k: nat): seq<Step> {
    match t.call.world.wire(k)
    case Fails(_, _) => []
    case Answers(response, _) => [Open(k)] + Answered(ModeOf(t, k), t.call.job.handlers, response, k).steps + [Close(k)]
  }

  /** Every response of the script goes to a handler that takes it both ways, or to none. */
  ghost predicate Uniform(t: Task) {
    forall k :: t.call.world.wire(k).Answers? ==>
      var response := t.call.world.wire(k).response;
      var found := FindHandler(t.call.job.handlers, response.status);
      found.Some? ==> TakesBothWays(found.value, response)
  }

  /** A suspended task is on the path of its sequential run. */
  ghost predicate Coherent(t: Task, pc: Pc) {
    && Placed(t, pc)
    && (pc.Finished?
        || (&& pc.now == SentOf(t, pc.k)
            && match pc
               case Handling(k, _, reported, handler, response) =>
                 && t.call.world.wire(k).Answers? && response == t.call.world.wire(k).response
                 && !DecideStatus(ModeOf(t, k), response.status).RetryIt?
                 && FindHandler(HandlersOf(t, reported), response.status) == Some(handler)
               case Releasing(k, _, _, outcome, _) =>
                 && t.call.world.wire(k).Answers?
                 && outcome == Answered(ModeOf(t, k), t.call.job.handlers, t.call.world.wire(k).response, k).outcome
               case Asleep(k, _, delay) =>
                 t.retried && JudgedAt(t.call, k).verdict.Again? && delay == JudgedAt(t.call, k).verdict.event.delay
               case _ => true))
  }

  /** What the sequential run still has to do from here. */
  function Rest(t: Task, pc: Pc): RunResult
    requires (t.retried ==> ValidCall(t.call)) && Placed(t, pc)
  {
    match pc
    case Finished(outcome) => RunResult([], outcome)
    case Ready(k, _) => RunOf(t, k)
    case Awaiting(k, _, _) => var rest := AfterAttemptOf(t, k); rest.(steps := AfterSend(t, k) + rest.steps)
    case Handling(k, _, _, _, _) => var rest := AfterAttemptOf(t, k); rest.(steps := [Close(k)] + rest.steps)
    case Releasing(k, _, _, _, _) => AfterAttemptOf(t, k)
    case Asleep(k, _, _) => AfterNap(t, k)
  }

  /** From one place of a run to the next: the steps done and those still to do make up those to do before. */
  ghost predicate Follows(t: Task, pc: Pc, done: Progress)
    requires (t.retried ==> ValidCall(t.call)) && Coherent(t, pc)
  {
    && Coherent(t, done.pc)
    && Erased(done.steps) + Erased(Rest(t, done.pc).steps) == Erased(Rest(t, pc).steps)
    && Rest(t, done.pc).outcome == Rest(t, pc).outcome
  }

  /** A run is its send, what follows the send, and what follows the attempt. */
  lemma RunSplits(t: Task, sink: Sink, k: nat)
    requires IsTask(t, sink) && 1 <= k <= Budget(t)
    ensures var rest := AfterAttemptOf(t, k);
            RunOf(t, k) == rest.(steps := [Send(k, SentKwargs(ModeOf(t, k), t.call.job.kwargs), SentOf(t, k))]
                                          + (AfterSend(t, k) + rest.steps))
  {
    hide SentAt, Answered, AfterAttempt;
    var send := [Send(k, SentKwargs(ModeOf(t, k), t.call.job.kwargs), SentOf(t, k))];
    AttemptSplits(t, sink, k);
    if t.retried { RunFromIsAttempt(t.call, k); }
    var rest := AfterAttemptOf(t, k).steps;
    assert send + AfterSend(t, k) + rest == send + (AfterSend(t, k) + rest);
    assert AfterSend(t, k) + [] == AfterSend(t, k);
  }

  lemma AttemptSplits(t: Task, sink: Sink, k: nat)
    requires IsTask(t, sink) && 1 <= k <= Budget(t)
    ensures AttemptOf(t, k).steps == [Send(k, SentKwargs(ModeOf(t, k), t.call.job.kwargs), SentOf(t, k))] + AfterSend(t, k)
    ensures t.retried ==> AttemptAt(t.call, k) == AttemptOf(t, k)
  {
    hide SentAt, Answered, SentKwargs;
    var send := [Send(k, SentKwargs(ModeOf(t, k), t.call.job.kwargs), SentOf(t, k))];
    match t.call.world.wire(k)
    case Fails(_, _) => assert send + [] == send;
    case Answers(response, _) =>
      Regrouped(send, [Open(k)], Answered(ModeOf(t, k), t.call.job.handlers, response, k).steps, [Close(k)]);
  }

  lemma ReportIsErased(labels: Labels, lifecycle: bool, reported: bool, outcome: Outcome, mark: Option<int>)
    ensures Erased(Report(labels, lifecycle, reported, outcome, mark)) == []
  {
    hide Erased, Observation;
    var ended := if lifecycle then [Metric(Ended(labels))] else [];
    var observed := [Observation(labels, outcome, mark)];
    ObservationIsMetric(labels, outcome, mark);
    ErasedConcat(ended, observed);
    ErasedOne(Metric(Ended(labels)));
    ErasedOne(observed[0]);
  }

  /** The end of an attempt with the outcome that the sequential run has. */
  lemma ConcludeFollows(t: Task, sink: Sink, on: bool, k: nat, now: real, reported: bool, outcome: Outcome,
                        mark: Option<int>)
    requires IsTask(t, sink) && 1 <= k <= Budget(t) && now == SentOf(t, k) && IsOutcomeOf(t, k, outcome)
    requires outcome == AttemptOf(t, k).outcome
    ensures var done := Conclude(t, sink, on, k, now, reported, outcome, mark);
            && Coherent(t, done.pc)
            && Erased(done.steps) + Erased(Rest(t, done.pc).steps) == Erased(AfterAttemptOf(t, k).steps)
            && Rest(t, done.pc).outcome == AfterAttemptOf(t, k).outcome
  {
    hide SentAt, AttemptOf, AttemptAt, Judge, Erased, RunFrom, AfterSleep, Report, AttemptLabels;
    var report := Report(AttemptLabels(t.call.job, sink.resolve), sink.lifecycle && on, reported, outcome, mark);
    ReportIsErased(AttemptLabels(t.call.job, sink.resolve), sink.lifecycle && on, reported, outcome, mark);
    AgainIsBelowLimit(t, k, now, outcome);
    JudgedIsJudged(t, sink, k);
    var judged := Judged(t, k, now, outcome);
    match judged.verdict
    case Stop(_) =>
      ErasedConcat(report, judged.notices);
      ErasedOne(Open(k));
    case Again(event) =>
      ErasedConcat(report, [Event(event), Sleep(k, event.delay)]);
      ErasedConcat([Event(event), Sleep(k, event.delay)], AfterSleep(t.call, k).steps);
  }

  lemma JudgedIsJudged(t: Task, sink: Sink, k: nat)
    requires IsTask(t, sink) && 1 <= k <= Budget(t) && IsOutcomeOf(t, k, AttemptOf(t, k).outcome)
    ensures t.retried ==> Judged(t, k, SentOf(t, k), AttemptOf(t, k).outcome) == JudgedAt(t.call, k)
  {
    hide SentAt, Attempt, Judge;
  }

  lemma OutcomeOfAttempt(t: Task, sink: Sink, k: nat)
    requires IsTask(t, sink) && 1 <= k <= Budget(t)
    ensures match t.call.world.wire(k)
            case Fails(e, inStack) => AttemptOf(t, k).outcome == Raised(ThroughStack(ModeOf(t, k), e, inStack))
            case Answers(response, _) =>
              AttemptOf(t, k).outcome == Released(t, k, Answered(ModeOf(t, k), t.call.job.handlers, response, k).outcome)
  {
    hide SentOf, Answered, ThroughStack;
  }

  /** One advance of a task whose handlers take the response both ways, with metrics on or off, does the next stretch of
      its sequential run. */
  lemma AdvanceFollowsRun(t: Task, sink: Sink, on: bool, pc: Pc)
    requires IsTask(t, sink) && Uniform(t) && Coherent(t, pc)
    ensures Follows(t, pc, Advance(t, sink, on, pc))
  {
    hide SentAt, Erased, RunFrom, Uniform, AfterAttemptOf, AfterSend, Conclude, Arrival, Departure, RunOf;
    AdvanceMakesProgress(t, sink, on, pc);
    match pc
    case Finished(_) => ErasedOne(Open(0));
    case Ready(k, now) => ReadyFollowsRun(t, sink, on, pc);
    case Awaiting(k, now, reported) => AwaitingFollowsRun(t, sink, on, pc);
    case Handling(k, now, reported, handler, response) => HandlingFollowsRun(t, sink, on, pc);
    case Releasing(k, now, reported, outcome, mark) =>
      OutcomeOfAttempt(t, sink, k);
      ConcludeFollows(t, sink, on, k, now, reported, Released(t, k, outcome), mark);
    case Asleep(k, now, delay) => AsleepFollowsRun(t, sink, on, pc);
  }

  lemma AsleepFollowsRun(t: Task, sink: Sink, on: bool, pc: Pc)
    requires IsTask(t, sink) && Coherent(t, pc) && pc.Asleep?
    ensures Follows(t, pc, Advance(t, sink, on, pc))
  {
    hide SentAt, Erased, RunFrom, JudgedAt;
    ErasedOne(Open(0));
    if t.call.world.asleep(pc.k).None? {
      WakesOnTime(t.call, pc.k);
      assert [] + Erased(RunFrom(t.call, pc.k + 1).steps) == Erased(RunFrom(t.call, pc.k + 1).steps);
    }
  }

  lemma HandlingFollowsRun(t: Task, sink: Sink, on: bool, pc: Pc)
    requires IsTask(t, sink) && Uniform(t) && Coherent(t, pc) && pc.Handling?
    ensures Follows(t, pc, Advance(t, sink, on, pc))
  {
    hide SentAt, Erased, AfterAttemptOf, RunHandler, FindHandler, AllMarking, DecideStatus;
    WrappingCommutes(t.call.job.handlers, pc.response, None);
    ErasedConcat([Close(pc.k)], AfterAttemptOf(t, pc.k).steps);
  }

  lemma ReadyFollowsRun(t: Task, sink: Sink, on: bool, pc: Pc)
    requires IsTask(t, sink) && Coherent(t, pc) && pc.Ready?
    ensures Follows(t, pc, Advance(t, sink, on, pc))
  {
    hide SentAt, Erased, RunOf, AfterAttemptOf, AfterSend, SentKwargs;
    var k, job := pc.k, t.call.job;
    RunSplits(t, sink, k);
    var started := if sink.lifecycle && on then [Metric(Started(AttemptLabels(job, sink.resolve)))] else [];
    var send := [Send(k, SentKwargs(ModeOf(t, k), if on then TracedKwargs(job, sink) else job.kwargs), pc.now)];
    var plain := [Send(k, SentKwargs(ModeOf(t, k), job.kwargs), pc.now)];
    var rest := AfterSend(t, k) + AfterAttemptOf(t, k).steps;
    ErasedConcat(started, send);
    ErasedOne(Metric(Started(AttemptLabels(job, sink.resolve))));
    SendsErasedAlike(t, sink, on, k, pc.now);
    ErasedConcat(plain, rest);
  }

  lemma SendsErasedAlike(t: Task, sink: Sink, on: bool, k: nat, now: real)
    requires sink.Recording?
    ensures var job := t.call.job;
            Erased([Send(k, SentKwargs(ModeOf(t, k), if on then TracedKwargs(job, sink) else job.kwargs), now)])
            == Erased([Send(k, SentKwargs(ModeOf(t, k), job.kwargs), now)])
  {
    hide Erased;
    var job := t.call.job;
    ErasedOne(Send(k, SentKwargs(ModeOf(t, k), if on then TracedKwargs(job, sink) else job.kwargs), now));
    ErasedOne(Send(k, SentKwargs(ModeOf(t, k), job.kwargs), now));
  }

  lemma AwaitingFollowsRun(t: Task, sink: Sink, on: bool, pc: Pc)
    requires IsTask(t, sink) && Coherent(t, pc) && pc.Awaiting?
    ensures Follows(t, pc, Advance(t, sink, on, pc))
  {
    hide SentAt, Erased, AfterAttemptOf, Arrival, Conclude, AttemptOf, Answered;
    var k, now, after := pc.k, pc.now, AfterAttemptOf(t, pc.k).steps;
    OutcomeOfAttempt(t, sink, k);
    match t.call.world.wire(k)
    case Fails(e, inStack) =>
      assert AfterSend(t, k) + after == after;
      ConcludeFollows(t, sink, on, k, now, pc.reported, Raised(ThroughStack(ModeOf(t, k), e, inStack)), None);
    case Answers(response, _) =>
      var done := Advance(t, sink, on, pc);
      ArrivalIsPlaced(t, pc);
      ArrivalIsCoherent(t, pc);
      ArrivalSteps(t, pc);
      if done.pc.Handling? {
        assert AfterSend(t, k) + after == done.steps + ([Close(k)] + after);
        ErasedConcat(done.steps, [Close(k)] + after);
      } else {
        assert done.steps + [] == done.steps;
        ErasedConcat(done.steps, after);
      }
  }

  lemma ArrivalIsCoherent(t: Task, pc: Pc)
    requires Coherent(t, pc) && pc.Awaiting? && t.call.world.wire(pc.k).Answers?
    requires Placed(t, Arrival(t, pc.k, pc.now, pc.reported, t.call.world.wire(pc.k).response).pc)
    ensures Coherent(t, Arrival(t, pc.k, pc.now, pc.reported, t.call.world.wire(pc.k).response).pc)
  {
    hide SentAt, Placed, FindHandler, AllMarking, SuppressionReason, MatchesOutcome, RunHandler;
    WrappingCommutes(t.call.job.handlers, t.call.world.wire(pc.k).response, None);
  }

  lemma ArrivalSteps(t: Task, pc: Pc)
    requires pc.Awaiting? && t.call.world.wire(pc.k).Answers?
    ensures var done := Arrival(t, pc.k, pc.now, pc.reported, t.call.world.wire(pc.k).response);
            AfterSend(t, pc.k) == done.steps + (if done.pc.Handling? then [Close(pc.k)] else [])
  {
    hide FindHandler, AllMarking, SuppressionReason, MatchesOutcome, RunHandler;
    WrappingCommutes(t.call.job.handlers, t.call.world.wire(pc.k).response, None);
  }

  /** Task i is on its sequential run, and its trace is what that run has done so far. */
  ghost predicate OnRun(u: Setup, s: Shared, i: nat)
    requires ValidSetup(u) && Invariant(u, s) && i < |u.tasks|
  {
    && Coherent(u.tasks[i], s.pcs[i])
    && Erased(s.traces[i]) + Erased(Rest(u.tasks[i], s.pcs[i]).steps) == Erased(Alone(u.tasks[i]).steps)
    && Rest(u.tasks[i], s.pcs[i]).outcome == Alone(u.tasks[i]).outcome
  }

  /** Every move keeps every such task on its sequential run. */
  lemma MoveKeepsOnRun(u: Setup, s: Shared, m: Move, i: nat)
    requires ValidSetup(u) && Invariant(u, s) && i < |u.tasks| && Uniform(u.tasks[i]) && OnRun(u, s, i)
    ensures Invariant(u, Moved(u, s, m)) && OnRun(u, Moved(u, s, m), i)
  {
    hide Coherent, Rest, Erased, Advance, AppliedAll, Alone, Placed, Uniform;
    MoveKeepsInvariant(u, s, m);
    if m == Resume(i) {
      AdvanceFollowsRun(u.tasks[i], u.sink, s.on, s.pcs[i]);
      var done := Advance(u.tasks[i], u.sink, s.on, s.pcs[i]);
      ErasedConcat(s.traces[i], done.steps);
      assert Erased(s.traces[i]) + (Erased(done.steps) + Erased(Rest(u.tasks[i], done.pc).steps))
          == Erased(s.traces[i]) + Erased(done.steps) + Erased(Rest(u.tasks[i], done.pc).steps);
    }
  }

  lemma {:induction false} StaysOnRun(u: Setup, on: bool, moves: seq<Move>, i: nat)
    requires ValidSetup(u) && i < |u.tasks| && Uniform(u.tasks[i])
    ensures OnRun(u, After(u, on, moves), i)
  {
    hide OnRun, Moved, Invariant, Uniform;
    if moves == [] {
      StartsOnRun(u, on, i);
    } else {
      StaysOnRun(u, on, moves[..|moves| - 1], i);
      MoveKeepsOnRun(u, After(u, on, moves[..|moves| - 1]), moves[|moves| - 1], i);
    }
  }

  lemma StartsOnRun(u: Setup, on: bool, i: nat)
    requires ValidSetup(u) && i < |u.tasks|
    ensures Invariant(u, Initial(u, on)) && OnRun(u, Initial(u, on), i)
  {
    hide Erased, RunOf;
    ErasedOne(Open(0));
    assert [] + Erased(Alone(u.tasks[i]).steps) == Erased(Alone(u.tasks[i]).steps);
  }

  /** Whatever the schedule, whatever the other tasks and however metrics are switched, the trace of a task whose handlers
      take the response both ways is a prefix of its sequential run on the plain client, metrics apart; once finished it is
      the whole run, with the same result. */
  lemma TasksAreIndependent(u: Setup, on: bool, moves: seq<Move>, i: nat)
    requires ValidSetup(u) && i < |u.tasks| && Uniform(u.tasks[i])
    ensures var s, run := After(u, on, moves), Alone(u.tasks[i]);
            Erased(s.traces[i]) <= Erased(run.steps)
            && (s.pcs[i].Finished? ==> Erased(s.traces[i]) == Erased(run.steps) && s.pcs[i].outcome == run.outcome)
  {
    hide After, Coherent, Erased, Alone, Uniform;
    var s := After(u, on, moves);
    StaysOnRun(u, on, moves, i);
    ErasedOne(Open(0));
    assert Erased(s.traces[i]) + [] == Erased(s.traces[i]);
  }
}
