/** What a shared sink counts while requests are interleaved and metrics are switched on and off. */
module InterleavedMetrics {
  import opened Wrappers
  import opened Exceptions
  import opened Retry
  import opened Handlers
  import opened Engine
  import opened RunProperties
  import opened Metrics
  import opened Instrumentation
  import opened Interleaving

  // ---- one advance ---------------------------------------------------------------------------------------------

  lemma AppliedOne(s: Counters, step: Step)
    ensures AppliedAll(s, [step]) == AppliedStep(s, step) && AppliedAll(s, []) == s
  {
    assert [step][1..] == [];
  }

  ghost predicate IsQuiet(steps: seq<Step>) {
    forall x :: x in steps ==> !x.Metric?
  }

  lemma {:induction false} AppliedQuiet(s: Counters, t: seq<Step>)
    requires IsQuiet(t)
    ensures AppliedAll(s, t) == s && Observations(t) == []
  {
    if t != [] {
      assert t[0] in t;
      AppliedQuiet(s, t[1..]);
    }
  }

  lemma GaugeMoves(s: Counters, own: Labels, labels: Labels)
    ensures Gauge(Applied(s, Started(own)), labels) == Gauge(s, labels) + if own == labels then 1 else 0
    ensures Gauge(Applied(s, Ended(own)), labels) == Gauge(s, labels) - if own == labels then 1 else 0
  {
  }

  function Weight(pc: Pc): int {
    if Flying(pc) then 1 else 0
  }

  /** What one advance makes the sink observe: an attempt that was counted in, when it ends. */
  predicate Observes(steps: seq<Step>, lands: bool) {
    var seen := Observations(steps);
    |seen| == (if lands then 1 else 0) && forall o :: o in seen ==> Sound(o)
  }

  /** What one advance does to the sink: a gauge goes up when a counted attempt begins, and down when one ends with metrics
      on; such an end is observed in any case. */
  lemma AdvanceCounts(t: Task, sink: Sink, on: bool, pc: Pc, s: Counters, labels: Labels)
    requires IsTask(t, sink) && Placed(t, pc)
    ensures var done := Advance(t, sink, on, pc);
            var own := AttemptLabels(t.call.job, sink.resolve);
            var lands := Flying(pc) && !Flying(done.pc);
            && Observes(done.steps, lands)
            && Gauge(AppliedAll(s, done.steps), labels)
               == Gauge(s, labels)
                  + (if own == labels && sink.lifecycle
                     then Weight(done.pc) - Weight(pc) + (if lands && !on then 1 else 0) else 0)
            && (Flying(done.pc) && !Flying(pc) <==> on && pc.Ready?)
  {
    hide AppliedAll, Gauge, Conclude, Departure, Arrival, AttemptLabels, Observations;
    if pc.Ready? {
      DepartureCounts(t, sink, on, pc.k, pc.now, s, labels);
    } else if pc.Awaiting? && t.call.world.wire(pc.k).Fails? {
      var wire := t.call.world.wire(pc.k);
      ConcludeCounts(t, sink, on, pc.k, pc.now, pc.reported,
                     Raised(ThroughStack(ModeOf(t, pc.k), wire.exn, wire.inStack)), None, s, labels);
    } else if pc.Releasing? {
      ConcludeCounts(t, sink, on, pc.k, pc.now, pc.reported, Released(t, pc.k, pc.outcome), pc.mark, s, labels);
    } else {
      OthersAreQuiet(t, sink, on, pc);
      AppliedQuiet(s, Advance(t, sink, on, pc).steps);
    }
  }

  lemma OthersAreQuiet(t: Task, sink: Sink, on: bool, pc: Pc)
    requires IsTask(t, sink) && Placed(t, pc)
    requires !pc.Ready? && !pc.Releasing? && (pc.Awaiting? ==> t.call.world.wire(pc.k).Answers?)
    ensures IsQuiet(Advance(t, sink, on, pc).steps)
    ensures Flying(pc) == Flying(Advance(t, sink, on, pc).pc)
  {
    hide DecideStatus, FindHandler, AllMarking, RunHandler;
    if pc.Awaiting? { ArrivalIsPlaced(t, pc); }
  }

  lemma DepartureCounts(t: Task, sink: Sink, on: bool, k: nat, now: real, s: Counters, labels: Labels)
    requires sink.Recording?
    ensures var steps := Departure(t, sink, on, k, now);
            && Observes(steps, false)
            && Gauge(AppliedAll(s, steps), labels)
               == Gauge(s, labels)
                  + (if on && sink.lifecycle && AttemptLabels(t.call.job, sink.resolve) == labels then 1 else 0)
  {
    hide AppliedAll, Gauge, AttemptLabels, Observations, SentKwargs;
    var own := AttemptLabels(t.call.job, sink.resolve);
    var started := if sink.lifecycle && on then [Metric(Started(own))] else [];
    var send := [Send(k, SentKwargs(ModeOf(t, k), if on then TracedKwargs(t.call.job, sink) else t.call.job.kwargs), now)];
    AppliedConcat(s, started, send);
    ObservationsConcat(started, send);
    ObservationsOne(Metric(Started(own)));
    AppliedOne(s, Metric(Started(own)));
    AppliedQuiet(AppliedAll(s, started), send);
    GaugeMoves(s, own, labels);
  }

  lemma ConcludeCounts(t: Task, sink: Sink, on: bool, k: nat, now: real, reported: bool, outcome: Outcome,
                       mark: Option<int>, s: Counters, labels: Labels)
    requires sink.Recording? && k >= 1 && IsOutcomeOf(t, k, outcome)
    ensures var done := Conclude(t, sink, on, k, now, reported, outcome, mark);
            var own := AttemptLabels(t.call.job, sink.resolve);
            && !Flying(done.pc)
            && Observes(done.steps, reported)
            && Gauge(AppliedAll(s, done.steps), labels)
               == Gauge(s, labels) - (if own == labels && reported && on && sink.lifecycle then 1 else 0)
  {
    hide AppliedAll, Judged, Gauge, AttemptLabels, Report, Observations;
    var own := AttemptLabels(t.call.job, sink.resolve);
    var report := Report(own, sink.lifecycle && on, reported, outcome, mark);
    var judged := Judged(t, k, now, outcome);
    var after := match judged.verdict
      case Stop(_) => judged.notices
      case Again(event) => [Event(event), Sleep(k, event.delay)];
    JudgementsAreQuiet(t, k, now, outcome);
    AppliedConcat(s, report, after);
    ObservationsConcat(report, after);
    AppliedQuiet(AppliedAll(s, report), after);
    ReportCounts(s, own, sink.lifecycle && on, reported, outcome, mark, labels);
    assert Observations(report) + [] == Observations(report);
  }

  lemma JudgementsAreQuiet(t: Task, k: nat, now: real, outcome: Outcome)
    requires k >= 1 && IsOutcomeOf(t, k, outcome)
    ensures IsQuiet(Judged(t, k, now, outcome).notices)
    ensures forall x :: x in Judged(t, k, now, outcome).notices ==> !x.Send?
  {
    hide GetDelay, MatchesOutcome, SuppressionReason;
  }

  lemma ReportCounts(s: Counters, own: Labels, lifecycle: bool, reported: bool, outcome: Outcome, mark: Option<int>,
                     labels: Labels)
    ensures var report := Report(own, lifecycle, reported, outcome, mark);
            && Observes(report, reported)
            && Gauge(AppliedAll(s, report), labels) == Gauge(s, labels) - (if own == labels && reported && lifecycle then 1 else 0)
  {
    hide AppliedAll, Observation, Observations;
    ObservationIsMetric(own, outcome, mark);
    ObservationIsSound(own, outcome, mark);
    var ended := if lifecycle then [Metric(Ended(own))] else [];
    var observed := [Observation(own, outcome, mark)];
    AppliedConcat(s, ended, observed);
    ObservationsConcat(ended, observed);
    ObservationsOne(Metric(Ended(own)));
    ObservationsOne(observed[0]);
    AppliedOne(s, Metric(Ended(own)));
    AppliedOne(AppliedAll(s, ended), observed[0]);
    GaugeMoves(s, own, labels);
  }

  lemma ObservationIsSound(own: Labels, outcome: Outcome, mark: Option<int>)
    ensures Observation(own, outcome, mark).Metric? && Observation(own, outcome, mark).call.Observed?
    ensures Sound(Observation(own, outcome, mark).call)
  {
    hide ClassifyException;
  }

  // ---- the in-flight gauge -------------------------------------------------------------------------------------

  /** How many of the first n tasks are inside a counted attempt with these labels. */
  ghost function FlyingCount(u: Setup, pcs: seq<Pc>, labels: Labels, n: nat): nat
    requires n <= |pcs| == |u.tasks| && u.sink.Recording?
  {
    if n == 0 then 0
    else FlyingCount(u, pcs, labels, n - 1) + (if Flying(pcs[n - 1]) && LabelsOf(u, n - 1) == labels then 1 else 0)
  }

  lemma {:induction false} FlyingCountUpdate(u: Setup, pcs: seq<Pc>, labels: Labels, n: nat, i: nat, pc: Pc)
    requires n <= |pcs| == |u.tasks| && u.sink.Recording? && i < |pcs|
    ensures FlyingCount(u, pcs[i := pc], labels, n)
         == FlyingCount(u, pcs, labels, n)
            + if i < n && LabelsOf(u, i) == labels then Weight(pc) - Weight(pcs[i]) else 0
  {
    hide LabelsOf, Flying;
    if n > 0 { FlyingCountUpdate(u, pcs, labels, n - 1, i, pc); }
  }

  lemma {:induction false} NoneFlying(u: Setup, pcs: seq<Pc>, labels: Labels, n: nat)
    requires n <= |pcs| == |u.tasks| && u.sink.Recording?
    requires forall i :: 0 <= i < n ==> !Flying(pcs[i])
    ensures FlyingCount(u, pcs, labels, n) == 0
  {
    if n > 0 { NoneFlying(u, pcs, labels, n - 1); }
  }

  ghost predicate GaugeAgrees(u: Setup, s: Shared, labels: Labels)
    requires |s.pcs| == |u.tasks| && u.sink.Recording?
  {
    Gauge(s.counters, labels)
    == if u.sink.lifecycle then FlyingCount(u, s.pcs, labels, |u.tasks|) + s.orphans[labels] else 0
  }

  /** At every step of every schedule the in-flight gauge of a label tuple is the number of tasks inside a counted
      attempt with those labels, plus the attempts that ended while metrics were off; or zero, for a sink without the two
      hooks. So it is never negative. */
  lemma {:induction false} GaugeCountsRunningAttempts(u: Setup, on: bool, moves: seq<Move>, labels: Labels)
    requires ValidSetup(u)
    ensures GaugeAgrees(u, After(u, on, moves), labels)
    ensures Gauge(After(u, on, moves).counters, labels) >= 0
  {
    hide Moved, GaugeAgrees, Placed;
    if moves == [] {
      GaugeStartsRight(u, on, labels);
    } else {
      GaugeCountsRunningAttempts(u, on, moves[..|moves| - 1], labels);
      MoveKeepsGauge(u, After(u, on, moves[..|moves| - 1]), moves[|moves| - 1], labels);
    }
    GaugeNotNegative(u, After(u, on, moves), labels);
  }

  lemma GaugeStartsRight(u: Setup, on: bool, labels: Labels)
    requires ValidSetup(u)
    ensures GaugeAgrees(u, Initial(u, on), labels)
  {
    hide Gauge;
    NoneFlying(u, Initial(u, on).pcs, labels, |u.tasks|);
    ZeroGauge(labels);
  }

  lemma MoveKeepsGauge(u: Setup, s: Shared, m: Move, labels: Labels)
    requires ValidSetup(u) && Invariant(u, s) && GaugeAgrees(u, s, labels)
    ensures Invariant(u, Moved(u, s, m)) && GaugeAgrees(u, Moved(u, s, m), labels)
  {
    hide AppliedAll, Advance, Gauge, Placed, Observes;
    MoveKeepsInvariant(u, s, m);
    if m.Resume? && m.i < |u.tasks| {
      var i := m.i;
      AdvanceCounts(u.tasks[i], u.sink, s.on, s.pcs[i], s.counters, labels);
      FlyingCountUpdate(u, s.pcs, labels, |u.tasks|, i, Advance(u.tasks[i], u.sink, s.on, s.pcs[i]).pc);
    }
  }

  lemma GaugeNotNegative(u: Setup, s: Shared, labels: Labels)
    requires ValidSetup(u) && Invariant(u, s) && GaugeAgrees(u, s, labels)
    ensures Gauge(s.counters, labels) >= 0
  {
  }

  lemma ZeroGauge(labels: Labels)
    ensures Gauge(ZERO, labels) == 0
  {
  }

  /** When every task has finished, the gauge of a sink with both hooks is back at zero iff no attempt with its labels
      ended while metrics were off: switching metrics off under a running attempt is what makes the gauge drift. */
  lemma GaugeReturnsToZeroIff(u: Setup, on: bool, moves: seq<Move>, labels: Labels)
    requires ValidSetup(u) && u.sink.lifecycle
    requires forall i :: 0 <= i < |u.tasks| ==> After(u, on, moves).pcs[i].Finished?
    ensures Gauge(After(u, on, moves).counters, labels) == After(u, on, moves).orphans[labels]
    ensures Gauge(After(u, on, moves).counters, labels) == 0 <==> labels !in After(u, on, moves).orphans
  {
    hide After;
    GaugeCountsRunningAttempts(u, on, moves, labels);
    NoneFlying(u, After(u, on, moves).pcs, labels, |u.tasks|);
  }

  ghost predicate AllDown(s: Shared) {
    forall i :: 0 <= i < |s.pcs| ==> !Flying(s.pcs[i])
  }

  /** Metrics are only ever switched off while no counted attempt is in flight. */
  ghost predicate QuietSwitches(u: Setup, on: bool, moves: seq<Move>)
    requires ValidSetup(u)
  {
    forall j :: 0 <= j < |moves| && moves[j] == Switch(false) ==> AllDown(After(u, on, moves[..j]))
  }

  /** Then no attempt ever ends with metrics off. */
  lemma {:induction false} QuietSwitchesLeaveNoOrphans(u: Setup, on: bool, moves: seq<Move>)
    requires ValidSetup(u) && QuietSwitches(u, on, moves)
    ensures var s := After(u, on, moves); s.orphans == multiset{} && (!s.on ==> AllDown(s))
  {
    hide AppliedAll, Advance, Placed, Flying, Observes;
    if moves == [] {
      AllDownAtFirst(u, on);
    } else {
      var rest, m := moves[..|moves| - 1], moves[|moves| - 1];
      assert forall j :: 0 <= j < |rest| ==> rest[..j] == moves[..j];
      QuietSwitchesLeaveNoOrphans(u, on, rest);
      var before := After(u, on, rest);
      if m.Resume? && m.i < |u.tasks| {
        var t, pc := u.tasks[m.i], before.pcs[m.i];
        AdvanceCounts(t, u.sink, before.on, pc, before.counters, AttemptLabels(t.call.job, u.sink.resolve));
      }
    }
  }

  lemma AllDownAtFirst(u: Setup, on: bool)
    ensures AllDown(Initial(u, on))
  {
  }

  /** So every gauge returns to zero. */
  lemma QuietSwitchesReturnToZero(u: Setup, on: bool, moves: seq<Move>, labels: Labels)
    requires ValidSetup(u) && QuietSwitches(u, on, moves)
    requires forall i :: 0 <= i < |u.tasks| ==> After(u, on, moves).pcs[i].Finished?
    ensures Gauge(After(u, on, moves).counters, labels) == 0
  {
    hide After, QuietSwitches;
    QuietSwitchesLeaveNoOrphans(u, on, moves);
    GaugeCountsRunningAttempts(u, on, moves, labels);
    NoneFlying(u, After(u, on, moves).pcs, labels, |u.tasks|);
  }

  /** In particular without switches. */
  lemma {:induction false} NoOrphansWithoutSwitches(u: Setup, on: bool, moves: seq<Move>)
    requires ValidSetup(u)
    requires forall m :: m in moves ==> m.Resume?
    ensures var s := After(u, on, moves);
            s.on == on && (!on ==> forall i :: 0 <= i < |s.pcs| ==> !Flying(s.pcs[i])) && s.orphans == multiset{}
  {
    hide AppliedAll, Advance, Placed, Flying;
    assert forall j :: 0 <= j < |moves| ==> moves[j] in moves;
    QuietSwitchesLeaveNoOrphans(u, on, moves);
    if moves != [] {
      assert moves[|moves| - 1] in moves;
      NoOrphansWithoutSwitches(u, on, moves[..|moves| - 1]);
    }
  }

  // ---- the counters over all tasks -----------------------------------------------------------------------------

  ghost function FlyingTotal(pcs: seq<Pc>, n: nat): nat
    requires n <= |pcs|
  {
    if n == 0 then 0 else FlyingTotal(pcs, n - 1) + (if Flying(pcs[n - 1]) then 1 else 0)
  }

  ghost function SendTotal(traces: seq<seq<Step>>, n: nat): nat
    requires n <= |traces|
  {
    if n == 0 then 0 else SendTotal(traces, n - 1) + |Pick(traces[n - 1], SendStep)|
  }

  /** How many observations of one fate the first n traces hold. */
  ghost function FateTotal(traces: seq<seq<Step>>, fate: Fate, n: nat): nat
    requires n <= |traces|
  {
    if n == 0 then 0 else FateTotal(traces, fate, n - 1) + Tally(Observations(traces[n - 1]), fate)
  }

  lemma {:induction false} FlyingTotalUpdate(pcs: seq<Pc>, n: nat, i: nat, pc: Pc)
    requires n <= |pcs| && i < |pcs|
    ensures FlyingTotal(pcs[i := pc], n) == FlyingTotal(pcs, n) + (if i < n then Weight(pc) - Weight(pcs[i]) else 0)
  {
    if n > 0 { FlyingTotalUpdate(pcs, n - 1, i, pc); }
  }

  lemma {:induction false} SendTotalUpdate(traces: seq<seq<Step>>, n: nat, i: nat, steps: seq<Step>)
    requires n <= |traces| && i < |traces|
    ensures SendTotal(traces[i := traces[i] + steps], n)
         == SendTotal(traces, n) + (if i < n then |Pick(steps, SendStep)| else 0)
  {
    hide Pick;
    PickConcat(traces[i], steps, SendStep);
    if n > 0 { SendTotalUpdate(traces, n - 1, i, steps); }
  }

  lemma {:induction false} TallyConcat(a: seq<SinkCall>, b: seq<SinkCall>, fate: Fate)
    requires forall o :: o in a + b ==> o.Observed?
    ensures (forall o :: o in a ==> o.Observed?) && (forall o :: o in b ==> o.Observed?)
    ensures Tally(a + b, fate) == Tally(a, fate) + Tally(b, fate)
  {
    assert forall o :: o in a || o in b ==> o in a + b;
    if a == [] {
      assert a + b == b;
    } else {
      assert (a + b)[1..] == a[1..] + b;
      assert a[0] in a;
      TallyConcat(a[1..], b, fate);
    }
  }

  lemma {:induction false} FateTotalUpdate(traces: seq<seq<Step>>, fate: Fate, n: nat, i: nat, steps: seq<Step>)
    requires n <= |traces| && i < |traces|
    ensures FateTotal(traces[i := traces[i] + steps], fate, n)
         == FateTotal(traces, fate, n) + (if i < n then Tally(Observations(steps), fate) else 0)
  {
    hide Observations, Tally;
    ObservationsConcat(traces[i], steps);
    TallyConcat(Observations(traces[i]), Observations(steps), fate);
    if n > 0 { FateTotalUpdate(traces, fate, n - 1, i, steps); }
  }

  lemma {:induction false} NoSends(t: seq<Step>)
    requires forall x :: x in t ==> !x.Send?
    ensures Pick(t, SendStep) == []
  {
    if t != [] {
      assert t[0] in t;
      NoSends(t[1..]);
    }
  }

  lemma AdvanceSends(t: Task, sink: Sink, on: bool, pc: Pc)
    requires IsTask(t, sink) && Placed(t, pc)
    ensures |Pick(Advance(t, sink, on, pc).steps, SendStep)| == if pc.Ready? then 1 else 0
  {
    hide Pick, Conclude, Departure;
    if pc.Ready? {
      DepartureSends(t, sink, on, pc.k, pc.now);
    } else {
      OthersSendNothing(t, sink, on, pc);
      NoSends(Advance(t, sink, on, pc).steps);
    }
  }

  lemma DepartureSends(t: Task, sink: Sink, on: bool, k: nat, now: real)
    requires sink.Recording?
    ensures |Pick(Departure(t, sink, on, k, now), SendStep)| == 1
  {
    hide Pick, SentKwargs, AttemptLabels;
    var started := if sink.lifecycle && on then [Metric(Started(AttemptLabels(t.call.job, sink.resolve)))] else [];
    var send := Send(k, SentKwargs(ModeOf(t, k), if on then TracedKwargs(t.call.job, sink) else t.call.job.kwargs), now);
    PickConcat(started, [send], SendStep);
    NoSends(started);
    PickOne(send, SendStep);
  }

  lemma OthersSendNothing(t: Task, sink: Sink, on: bool, pc: Pc)
    requires IsTask(t, sink) && Placed(t, pc) && !pc.Ready?
    ensures forall x :: x in Advance(t, sink, on, pc).steps ==> !x.Send?
  {
    hide Conclude, DecideStatus, FindHandler, AllMarking, RunHandler;
    if pc.Awaiting? && t.call.world.wire(pc.k).Fails? {
      var wire := t.call.world.wire(pc.k);
      var raised := Raised(ThroughStack(ModeOf(t, pc.k), wire.exn, wire.inStack));
      ConcludeSends(t, sink, on, pc.k, pc.now, pc.reported, raised, None);
    } else if pc.Releasing? {
      ConcludeSends(t, sink, on, pc.k, pc.now, pc.reported, Released(t, pc.k, pc.outcome), pc.mark);
    }
  }

  lemma ConcludeSends(t: Task, sink: Sink, on: bool, k: nat, now: real, reported: bool, outcome: Outcome,
                      mark: Option<int>)
    requires sink.Recording? && k >= 1 && IsOutcomeOf(t, k, outcome)
    ensures forall x :: x in Conclude(t, sink, on, k, now, reported, outcome, mark).steps ==> !x.Send?
  {
    hide Judged, Observation;
    JudgementsAreQuiet(t, k, now, outcome);
    ObservationIsMetric(AttemptLabels(t.call.job, sink.resolve), outcome, mark);
  }

  /** How many physical requests were sent by moves made while metrics were on. */
  ghost function SendsWhileOn(u: Setup, on: bool, moves: seq<Move>): nat
    requires ValidSetup(u)
  {
    if moves == [] then 0
    else
      var before, m := After(u, on, moves[..|moves| - 1]), moves[|moves| - 1];
      SendsWhileOn(u, on, moves[..|moves| - 1])
      + if before.on && m.Resume? && m.i < |u.tasks|
        then |Pick(Advance(u.tasks[m.i], u.sink, true, before.pcs[m.i]).steps, SendStep)| else 0
  }

  /** The counters and what the traces hold: requests_total is the observations of every fate, errors_total the failures,
      the cancelled requests the cancellations; the histogram has as many observations as the counter, and for each label
      tuple as many responses. */
  ghost predicate CountersAgree(s: Shared, labels: Labels) {
    var n := |s.traces|;
    && |s.counters.requests| == FateTotal(s.traces, Succeeded, n) + FateTotal(s.traces, WasCancelled, n) + FateTotal(s.traces, Failed, n)
    && |s.counters.latency| == |s.counters.requests|
    && |s.counters.errors| == FateTotal(s.traces, Failed, n)
    && CountIf(s.counters.requests, HasOutcome(Cancelled)) == FateTotal(s.traces, WasCancelled, n)
    && CountIf(s.counters.requests, ResponseRequests(labels)) == s.counters.latency[LatencyKey(labels, true)]
  }

  lemma AdvanceKeepsCounters(u: Setup, s: Shared, i: nat, labels: Labels)
    requires ValidSetup(u) && Invariant(u, s) && i < |u.tasks| && CountersAgree(s, labels)
    ensures CountersAgree(Moved(u, s, Resume(i)), labels)
    ensures var lands := Flying(s.pcs[i]) && !Flying(Advance(u.tasks[i], u.sink, s.on, s.pcs[i]).pc);
            |Moved(u, s, Resume(i)).counters.requests| == |s.counters.requests| + if lands then 1 else 0
  {
    hide AppliedAll, Advance, Placed, CountIf, Observations, Tally, Sound;
    var done := Advance(u.tasks[i], u.sink, s.on, s.pcs[i]);
    var seen := Observations(done.steps);
    AdvanceCounts(u.tasks[i], u.sink, s.on, s.pcs[i], s.counters, labels);
    TraceCounts(s.counters, done.steps, labels);
    TallyIsExhaustive(seen);
    FateTotalUpdate(s.traces, Succeeded, |s.traces|, i, done.steps);
    FateTotalUpdate(s.traces, WasCancelled, |s.traces|, i, done.steps);
    FateTotalUpdate(s.traces, Failed, |s.traces|, i, done.steps);
  }

  lemma {:induction false} NothingYet(u: Setup, on: bool, n: nat, fate: Fate)
    requires n <= |u.tasks|
    ensures FlyingTotal(Initial(u, on).pcs, n) == 0 && SendTotal(Initial(u, on).traces, n) == 0
    ensures FateTotal(Initial(u, on).traces, fate, n) == 0
  {
    if n > 0 { NothingYet(u, on, n - 1, fate); }
  }

  lemma CountersStartRight(u: Setup, on: bool, labels: Labels)
    ensures CountersAgree(Initial(u, on), labels)
  {
    hide CountIf, Tally, Observations;
    NothingYet(u, on, |u.tasks|, Succeeded);
    NothingYet(u, on, |u.tasks|, WasCancelled);
    NothingYet(u, on, |u.tasks|, Failed);
    CountIfNothing(HasOutcome(Cancelled));
    CountIfNothing(ResponseRequests(labels));
  }

  /** Conservation over schedules: at every step, whatever the tasks and however metrics are switched, the counters agree
      with what the traces hold. */
  lemma {:induction false} CountersAreConserved(u: Setup, on: bool, moves: seq<Move>, labels: Labels)
    requires ValidSetup(u)
    ensures CountersAgree(After(u, on, moves), labels)
  {
    hide CountersAgree, Placed, Advance, AppliedAll;
    if moves == [] {
      CountersStartRight(u, on, labels);
    } else {
      var before, m := After(u, on, moves[..|moves| - 1]), moves[|moves| - 1];
      CountersAreConserved(u, on, moves[..|moves| - 1], labels);
      if m.Resume? && m.i < |u.tasks| {
        AdvanceKeepsCounters(u, before, m.i, labels);
      } else if m.Switch? {
        SwitchKeepsCounters(before, m.on, labels);
      }
    }
  }

  lemma SwitchKeepsCounters(s: Shared, on: bool, labels: Labels)
    requires CountersAgree(s, labels)
    ensures CountersAgree(s.(on := on), labels)
  {
  }

  /** However metrics are switched, at every step of every schedule requests_total plus the counted attempts in flight is
      the number of physical requests that all tasks together sent while metrics were on. */
  lemma {:induction false} RequestsCountSendsWhileOn(u: Setup, on: bool, moves: seq<Move>)
    requires ValidSetup(u)
    ensures var s := After(u, on, moves);
            |s.counters.requests| + FlyingTotal(s.pcs, |s.pcs|) == SendsWhileOn(u, on, moves)
  {
    hide AppliedAll, Advance, Placed, Pick, CountersAgree, Flying, Observes;
    if moves == [] {
      NothingYet(u, on, |u.tasks|, Succeeded);
    } else {
      var before, m := After(u, on, moves[..|moves| - 1]), moves[|moves| - 1];
      RequestsCountSendsWhileOn(u, on, moves[..|moves| - 1]);
      if m.Resume? && m.i < |u.tasks| {
        var i := m.i;
        var labels := LabelsOf(u, i);
        CountersAreConserved(u, on, moves[..|moves| - 1], labels);
        AdvanceKeepsCounters(u, before, i, labels);
        AdvanceCounts(u.tasks[i], u.sink, before.on, before.pcs[i], before.counters, labels);
        AdvanceSends(u.tasks[i], u.sink, before.on, before.pcs[i]);
        FlyingTotalUpdate(before.pcs, |u.tasks|, i, Advance(u.tasks[i], u.sink, before.on, before.pcs[i]).pc);
      }
    }
  }

  /** With metrics on throughout these are all the requests that the tasks have sent. */
  lemma {:induction false} AllSendsWhileOn(u: Setup, moves: seq<Move>)
    requires ValidSetup(u)
    requires forall m :: m in moves ==> m.Resume?
    ensures var s := After(u, true, moves); s.on && SendsWhileOn(u, true, moves) == SendTotal(s.traces, |s.traces|)
  {
    hide AppliedAll, Advance, Placed, Pick;
    if moves == [] {
      NothingYet(u, true, |u.tasks|, Succeeded);
    } else {
      var before, m := After(u, true, moves[..|moves| - 1]), moves[|moves| - 1];
      assert m in moves;
      AllSendsWhileOn(u, moves[..|moves| - 1]);
      if m.i < |u.tasks| {
        SendTotalUpdate(before.traces, |u.tasks|, m.i, Advance(u.tasks[m.i], u.sink, true, before.pcs[m.i]).steps);
      }
    }
  }

  /** So requests_total plus the attempts in flight is then the number of all physical requests. */
  lemma RequestsCountAllAttempts(u: Setup, moves: seq<Move>)
    requires ValidSetup(u)
    requires forall m :: m in moves ==> m.Resume?
    ensures var s := After(u, true, moves);
            |s.counters.requests| + FlyingTotal(s.pcs, |s.pcs|) == SendTotal(s.traces, |s.traces|)
    ensures After(u, true, moves).on
  {
    hide After, FlyingTotal, SendTotal, SendsWhileOn;
    RequestsCountSendsWhileOn(u, true, moves);
    AllSendsWhileOn(u, moves);
  }

  // ---- a drifting gauge ----------------------------------------------------------------------------------------

  /** Such a schedule: one request that may be sent once, metrics switched off while it is out, then its failure. The
      gauge stays at one. */
  lemma GaugeDriftInstance(t: Task, sink: Sink)
    requires IsTask(t, sink) && sink.lifecycle && Budget(t) == 1 && t.call.world.wire(1).Fails?
    ensures var u, moves := Setup([t], sink), [Resume(0), Switch(false), Resume(0)];
            && ValidSetup(u)
            && var s := After(u, true, moves);
            s.pcs[0].Finished? && Gauge(s.counters, AttemptLabels(t.call.job, sink.resolve)) == 1
  {
    hide Gauge, AppliedAll, After, Advance, AttemptLabels;
    var u, out, moves := Setup([t], sink), [Resume(0), Switch(false)], [Resume(0), Switch(false), Resume(0)];
    RequestOutWithMetricsOff(t, sink);
    assert out + [Resume(0)] == moves;
    AfterOne(u, true, out, Resume(0));
    FailureFinishes(t, sink, After(u, true, out).pcs[0]);
    GaugeReturnsToZeroIff(u, true, moves, LabelsOf(u, 0));
  }

  lemma RequestOutWithMetricsOff(t: Task, sink: Sink)
    requires IsTask(t, sink)
    ensures ValidSetup(Setup([t], sink))
    ensures var s := After(Setup([t], sink), true, [Resume(0), Switch(false)]);
            s.pcs == [Awaiting(1, t.call.start, true)] && !s.on && s.orphans == multiset{}
  {
    hide Gauge, AppliedAll, After, Conclude, Departure;
    var u := Setup([t], sink);
    AfterNothing(u, true);
    AfterOne(u, true, [], Resume(0));
    AfterOne(u, true, [Resume(0)], Switch(false));
    assert [] + [Resume(0)] == [Resume(0)] && [Resume(0)] + [Switch(false)] == [Resume(0), Switch(false)];
  }

  lemma FailureFinishes(t: Task, sink: Sink, pc: Pc)
    requires IsTask(t, sink) && Budget(t) == 1 && t.call.world.wire(1).Fails? && pc == Awaiting(1, t.call.start, true)
    ensures Placed(t, pc) && Advance(t, sink, false, pc).pc.Finished?
  {
    hide Judged;
    var wire := t.call.world.wire(1);
    AgainIsBelowLimit(t, 1, pc.now, Raised(ThroughStack(ModeOf(t, 1), wire.exn, wire.inStack)));
  }

  lemma AfterNothing(u: Setup, on: bool)
    requires ValidSetup(u)
    ensures After(u, on, []) == Initial(u, on)
  {
  }

  lemma AfterOne(u: Setup, on: bool, moves: seq<Move>, m: Move)
    requires ValidSetup(u)
    ensures After(u, on, moves + [m]) == Moved(u, After(u, on, moves), m)
  {
    assert (moves + [m])[..|moves|] == moves;
  }

  // ---- what is reported ----------------------------------------------------------------------------------------

  /** The fair report of attempt k of a task. */
  function FairReport(t: Task, sink: Sink, k: nat): SinkCall
    requires sink.Recording?
  {
    var (status, outcome, error) := FairLabels(t.call.job, ModeOf(t, k), t.call.world, k);
    Observed(AttemptLabels(t.call.job, sink.resolve), status, outcome, error)
  }

  /** The calls are fair reports of different attempts up to n, in their order. */
  ghost predicate ReportsInOrder(t: Task, sink: Sink, seen: seq<SinkCall>, n: int)
    requires sink.Recording?
    decreases |seen|
  {
    seen == []
    || exists k: nat :: 1 <= k <= n && seen[|seen| - 1] == FairReport(t, sink, k)
                        && ReportsInOrder(t, sink, seen[..|seen| - 1], k - 1)
  }

  lemma MoreInOrder(t: Task, sink: Sink, seen: seq<SinkCall>, n: int, m: int)
    requires sink.Recording? && ReportsInOrder(t, sink, seen, n) && n <= m
    ensures ReportsInOrder(t, sink, seen, m)
  {
    hide FairLabels;
  }

  lemma ReportAdded(t: Task, sink: Sink, seen: seq<SinkCall>, k: nat)
    requires sink.Recording? && k >= 1 && ReportsInOrder(t, sink, seen, k - 1)
    ensures ReportsInOrder(t, sink, seen + [FairReport(t, sink, k)], k)
  {
    hide FairReport;
    var more := seen + [FairReport(t, sink, k)];
    assert more[..|more| - 1] == seen;
  }

  /** How far a task has got: its last attempt that has ended. */
  function EndedUpTo(t: Task, pc: Pc): int {
    match pc
    case Finished(_) => Budget(t)
    case Asleep(k, _, _) => k
    case _ => pc.k - 1
  }

  /** A counted attempt holds what the wrapped handlers have made of its response. */
  ghost predicate HoldsFairly(t: Task, pc: Pc) {
    match pc
    case Handling(k, _, reported, handler, response) =>
      reported ==>
        && t.call.world.wire(k).Answers? && response == t.call.world.wire(k).response
        && !DecideStatus(ModeOf(t, k), response.status).RetryIt?
        && FindHandler(AllMarking(t.call.job.handlers), response.status) == Some(handler)
    case Releasing(k, _, reported, outcome, mark) =>
      reported ==>
        && t.call.world.wire(k).Answers?
        && var inside := Answered(ModeOf(t, k), AllMarking(t.call.job.handlers), t.call.world.wire(k).response, k);
        outcome == inside.outcome && mark == inside.mark
    case _ => true
  }

  /** The report at the end of a counted attempt is its fair one. */
  lemma ConcludedFairly(t: Task, sink: Sink, k: nat, outcome: Outcome, mark: Option<int>)
    requires sink.Recording?
    requires match t.call.world.wire(k)
             case Fails(e, inStack) => outcome == Raised(ThroughStack(ModeOf(t, k), e, inStack)) && mark.None?
             case Answers(response, _) =>
               var inside := Answered(ModeOf(t, k), AllMarking(t.call.job.handlers), response, k);
               outcome == Released(t, k, inside.outcome) && mark == inside.mark
    ensures Observation(AttemptLabels(t.call.job, sink.resolve), outcome, mark) == Metric(FairReport(t, sink, k))
  {
    hide FairLabels, Answered, ThroughStack, Classify, AttemptLabels, AllMarking;
    ObservedFairly(t.call.job, ModeOf(t, k), sink, t.call.world, k, 0.0);
  }

  lemma ConcludeReports(t: Task, sink: Sink, on: bool, k: nat, now: real, reported: bool, outcome: Outcome,
                        mark: Option<int>)
    requires sink.Recording? && k >= 1 && IsOutcomeOf(t, k, outcome)
    ensures var done, labels := Conclude(t, sink, on, k, now, reported, outcome, mark), AttemptLabels(t.call.job, sink.resolve);
            && Observations(done.steps) == (if reported then [Observation(labels, outcome, mark).call] else [])
            && Observation(labels, outcome, mark).Metric?
            && (done.pc.Finished? || (done.pc.Asleep? && done.pc.k == k))
  {
    hide Judged, AttemptLabels, Observations, Observation;
    var own := AttemptLabels(t.call.job, sink.resolve);
    var report := Report(own, sink.lifecycle && on, reported, outcome, mark);
    var judged := Judged(t, k, now, outcome);
    var after := match judged.verdict
      case Stop(_) => judged.notices
      case Again(event) => [Event(event), Sleep(k, event.delay)];
    JudgementsAreQuiet(t, k, now, outcome);
    ObservationsConcat(report, after);
    AppliedQuiet(ZERO, after);
    ObservationIsMetric(own, outcome, mark);
    var ended := if sink.lifecycle && on then [Metric(Ended(own))] else [];
    ObservationsConcat(ended, [Observation(own, outcome, mark)]);
    ObservationsOne(Metric(Ended(own)));
    ObservationsOne(Observation(own, outcome, mark));
    assert Observations(report) + [] == Observations(report);
  }

  lemma AdvanceReports(t: Task, sink: Sink, on: bool, pc: Pc, seen: seq<SinkCall>)
    requires IsTask(t, sink) && Placed(t, pc) && HoldsFairly(t, pc)
    requires ReportsInOrder(t, sink, seen, EndedUpTo(t, pc))
    ensures var done := Advance(t, sink, on, pc);
            && HoldsFairly(t, done.pc) && Placed(t, done.pc)
            && ReportsInOrder(t, sink, seen + Observations(done.steps), EndedUpTo(t, done.pc))
  {
    hide Conclude, Departure, Arrival, Observations, ReportsInOrder, FairReport, Report, Answered, Observation, AttemptLabels;
    hide ThroughStack;
    AdvanceMakesProgress(t, sink, on, pc);
    var done := Advance(t, sink, on, pc);
    if (pc.Awaiting? && t.call.world.wire(pc.k).Fails?) || pc.Releasing? {
      var wire := t.call.world.wire(pc.k);
      var outcome, mark := if pc.Awaiting? then Raised(ThroughStack(ModeOf(t, pc.k), wire.exn, wire.inStack))
                           else Released(t, pc.k, pc.outcome), if pc.Awaiting? then None else pc.mark;
      ConcludeReports(t, sink, on, pc.k, pc.now, pc.reported, outcome, mark);
      if pc.reported {
        ConcludedFairly(t, sink, pc.k, outcome, mark);
        ReportAdded(t, sink, seen, pc.k);
        MoreInOrder(t, sink, seen + [FairReport(t, sink, pc.k)], pc.k, EndedUpTo(t, done.pc));
      } else {
        assert seen + [] == seen;
        MoreInOrder(t, sink, seen, pc.k - 1, EndedUpTo(t, done.pc));
      }
    } else {
      NothingReported(t, sink, on, pc);
      assert seen + [] == seen;
      MoreInOrder(t, sink, seen, EndedUpTo(t, pc), EndedUpTo(t, done.pc));
    }
  }

  lemma NothingReported(t: Task, sink: Sink, on: bool, pc: Pc)
    requires IsTask(t, sink) && Placed(t, pc) && HoldsFairly(t, pc) && Placed(t, Advance(t, sink, on, pc).pc)
    requires !pc.Releasing? && (pc.Awaiting? ==> t.call.world.wire(pc.k).Answers?)
    ensures var done := Advance(t, sink, on, pc);
            Observations(done.steps) == [] && HoldsFairly(t, done.pc) && EndedUpTo(t, pc) <= EndedUpTo(t, done.pc)
  {
    hide FindHandler, AllMarking, RunHandler, SuppressionReason, MatchesOutcome, Observations;
    if pc.Ready? {
      DepartureCounts(t, sink, on, pc.k, pc.now, ZERO, AttemptLabels(t.call.job, sink.resolve));
    } else {
      OthersAreQuiet(t, sink, on, pc);
      AppliedQuiet(ZERO, Advance(t, sink, on, pc).steps);
    }
  }

  /** What a task has reported so far. */
  ghost predicate ReportedFairly(u: Setup, s: Shared, i: nat)
    requires ValidSetup(u) && Invariant(u, s) && i < |u.tasks|
  {
    HoldsFairly(u.tasks[i], s.pcs[i])
    && ReportsInOrder(u.tasks[i], u.sink, Observations(s.traces[i]), EndedUpTo(u.tasks[i], s.pcs[i]))
  }

  /** At every step of every schedule, however metrics are switched and whatever its handlers, what a task has reported are
      the fair counts of some of its attempts that have ended, each at most once and in their order. */
  lemma {:induction false} ReportsAreFair(u: Setup, on: bool, moves: seq<Move>, i: nat)
    requires ValidSetup(u) && i < |u.tasks|
    ensures ReportedFairly(u, After(u, on, moves), i)
  {
    hide Advance, AppliedAll, Observations, ReportsInOrder, HoldsFairly, EndedUpTo, Placed;
    if moves == [] {
      NothingAtFirst(u, on, i);
    } else {
      var before, m := After(u, on, moves[..|moves| - 1]), moves[|moves| - 1];
      ReportsAreFair(u, on, moves[..|moves| - 1], i);
      if m == Resume(i) {
        AdvanceReports(u.tasks[i], u.sink, before.on, before.pcs[i], Observations(before.traces[i]));
        ObservationsConcat(before.traces[i], Advance(u.tasks[i], u.sink, before.on, before.pcs[i]).steps);
      }
    }
  }

  lemma NothingAtFirst(u: Setup, on: bool, i: nat)
    requires ValidSetup(u) && i < |u.tasks|
    ensures Invariant(u, Initial(u, on)) && ReportedFairly(u, Initial(u, on), i)
  {
    ObservationsOne(Open(0));
  }
}
