/** More about every run: its protocol, what reaches the caller, cancellation, one-shot bodies and time. */
module RunSafety {
  import opened Wrappers
  import opened Strings
  import opened Exceptions
  import opened Retry
  import opened Request
  import opened Handlers
  import opened Engine
  import opened RunProperties

  // ---- the protocol of a run ---------------------------------------------------------------------------

  datatype Stage = Ready | Sent | Opened | Ran | Closed | Due(delay: real) | Over

  /** Where a trace stands: the current attempt, its stage, and whether its response has been reported. */
  datatype Phase = Phase(attempt: nat, stage: Stage, reported: bool)

  /** The one step relation of the protocol: which step may come next, and where it leads. */
  function Next(p: Phase, s: Step): Option<Phase> {
    match s
    case Send(k, _, _) => if p.stage.Ready? && k == p.attempt + 1 then Some(Phase(k, Sent, false)) else None
    case Open(k) => if p.stage.Sent? && k == p.attempt then Some(p.(stage := Opened)) else None
    case Handle(k, _) => if p.stage.Opened? && k == p.attempt then Some(p.(stage := Ran)) else None
    case Close(k) => if (p.stage.Opened? || p.stage.Ran?) && k == p.attempt then Some(p.(stage := Closed)) else None
    case Event(e) =>
      if e.context.attempt != p.attempt then None
      else if e.kind == Scheduled then
        if (p.stage.Sent? || p.stage.Closed?) && !p.reported then Some(p.(stage := Due(e.delay))) else None
      else if e.context.responseStatus.Some? then
        if p.stage.Opened? && !p.reported then Some(p.(reported := true)) else None
      else
        if p.stage.Sent? || p.stage.Closed? then Some(p.(stage := Over)) else None
    case Sleep(k, delay) => if p.stage == Due(delay) && k == p.attempt then Some(p.(stage := Ready)) else None
    case Metric(_) => Some(p)
  }

  /** Where a trace leads, if it obeys the protocol. */
  function Follow(p: Phase, t: seq<Step>): Option<Phase>
    decreases t
  {
    if t == [] then Some(p)
    else
      match Next(p, t[0])
      case None => None
      case Some(p') => Follow(p', t[1..])
  }

  lemma {:induction false} FollowConcat(p: Phase, a: seq<Step>, b: seq<Step>)
    ensures Follow(p, a + b) == match Follow(p, a) case None => None case Some(p') => Follow(p', b)
    decreases a
  {
    if a == [] {
      assert a + b == b;
    } else {
      assert (a + b)[1..] == a[1..] + b;
      var next := Next(p, a[0]);
      if next.Some? { FollowConcat(next.value, a[1..], b); }
    }
  }

  lemma FollowOne(p: Phase, s: Step)
    ensures Follow(p, [s]) == Next(p, s)
  {
    assert [s][1..] == [];
  }

  /** Follow a + [s] + b when a leads to p' and s may come next. */
  lemma FollowThrough(p: Phase, a: seq<Step>, s: Step, p': Phase)
    requires Follow(p, a) == Some(p')
    ensures Follow(p, a + [s]) == Next(p', s)
  {
    FollowConcat(p, a, [s]);
    FollowOne(p', s);
  }

  lemma BaseAttemptFollows(c: Call, handlers: HandlerMap, kwargs: Kwargs, k: nat, now: real)
    requires 1 <= k
    ensures var mode := ModeAt(c, k);
            Follow(Phase(k - 1, Ready, false), BaseAttempt(mode, handlers, kwargs, c.world, k, now).steps)
            == Some(Phase(k, if c.world.wire(k).Fails? then Sent else Closed, StatusNotices(mode, c.world, k) != []))
  {
    hide BaseAttempt, Follow;
    var mode := ModeAt(c, k);
    AttemptShape(mode, handlers, kwargs, c.world, k, now);
    var start := Phase(k - 1, Ready, false);
    var t := [Send(k, SentKwargs(mode, kwargs), now)];
    FollowOne(start, t[0]);
    var notices, calls := StatusNotices(mode, c.world, k), HandlerCalls(mode, handlers, c.world, k);
    if c.world.wire(k).Fails? {
      assert t + (notices + calls) == t;
    } else {
      FollowThrough(start, t, Open(k), Phase(k, Sent, false));
      t := t + [Open(k)];
      var reported := Phase(k, Opened, notices != []);
      assert Follow(start, t + notices) == Some(reported) by {
        if notices == [] {
          assert t + notices == t;
        } else {
          assert notices == [notices[0]];
          FollowThrough(start, t, notices[0], Phase(k, Opened, false));
        }
      }
      var handled := reported.(stage := if calls == [] then Opened else Ran);
      assert Follow(start, t + notices + calls) == Some(handled) by {
        if calls == [] {
          assert t + notices + calls == t + notices;
        } else {
          assert calls == [calls[0]];
          FollowThrough(start, t + notices, calls[0], reported);
        }
      }
      FollowThrough(start, t + notices + calls, Close(k), handled);
      assert t + (notices + calls) + [Close(k)] == t + notices + calls + [Close(k)];
    }
  }

  lemma {:induction false} MetricsAreIgnored(p: Phase, t: seq<Step>)
    requires forall s :: s in t ==> s.Metric?
    ensures Follow(p, t) == Some(p)
  {
    if t != [] {
      assert t[0] in t;
      MetricsAreIgnored(p, t[1..]);
    }
  }

  lemma AttemptFollows(c: Call, k: nat)
    requires 1 <= k
    ensures Follow(Phase(k - 1, Ready, false), AttemptAt(c, k).steps)
         == Some(Phase(k, if c.world.wire(k).Fails? then Sent else Closed, StatusNotices(ModeAt(c, k), c.world, k) != []))
  {
    hide BaseAttempt, Follow, StatusNotices, SentAt, Observation;
    var mode, now := ModeAt(c, k), SentAt(c, k);
    if c.sink.Noop? {
      BaseAttemptFollows(c, c.job.handlers, c.job.kwargs, k, now);
    } else {
      var handlers, kwargs := AllMarking(c.job.handlers), TracedKwargs(c.job, c.sink);
      BaseAttemptFollows(c, handlers, kwargs, k, now);
      var inner := BaseAttempt(mode, handlers, kwargs, c.world, k, now);
      var labels := AttemptLabels(c.job, c.sink.resolve);
      var start := Phase(k - 1, Ready, false);
      var started := if c.sink.lifecycle then [Metric(Started(labels))] else [];
      var ended := if c.sink.lifecycle then [Metric(Ended(labels))] else [];
      var observed := [Observation(labels, inner.outcome, inner.mark)];
      ObservationIsMetric(labels, inner.outcome, inner.mark);
      MetricsAreIgnored(start, started);
      FollowConcat(start, started, inner.steps);
      var end := Follow(start, inner.steps).value;
      MetricsAreIgnored(end, ended);
      FollowConcat(start, started + inner.steps, ended);
      MetricsAreIgnored(end, observed);
      FollowConcat(start, started + inner.steps + ended, observed);
    }
  }

  lemma RoundFollows(c: Call, k: nat)
    requires 1 <= k
    ensures var end := Follow(Phase(k - 1, Ready, false), RoundAt(c, k).steps);
            end.Some? && (RoundAt(c, k).More? ==> end == Some(Phase(k, Ready, false)))
            && !end.value.stage.Opened? && !end.value.stage.Ran?
  {
    hide Follow, StatusNotices, SentAt, JudgedAt, AttemptAt;
    var start, steps, judged := Phase(k - 1, Ready, false), AttemptAt(c, k).steps, JudgedAt(c, k);
    AttemptFollows(c, k);
    var here := Follow(start, steps).value;
    match judged.verdict
    case Stop(_) =>
      NoticesShape(c, k);
      if judged.notices == [] {
        assert steps + judged.notices == steps;
      } else {
        assert judged.notices == [judged.notices[0]];
        FollowThrough(start, steps, judged.notices[0], here);
      }
    case Again(event) =>
      RescheduledIsSilent(c, k);
      ScheduledIsAboutAttempt(c, k);
      FollowThrough(start, steps, Event(event), here);
      FollowThrough(start, steps + [Event(event)], Sleep(k, event.delay), here.(stage := Due(event.delay)));
      assert steps + [Event(event)] + [Sleep(k, event.delay)] == steps + [Event(event), Sleep(k, event.delay)];
  }

  lemma ScheduledIsAboutAttempt(c: Call, k: nat)
    requires 1 <= k && JudgedAt(c, k).verdict.Again?
    ensures JudgedAt(c, k).verdict.event.context.attempt == k
  {
    RescheduledIsSilent(c, k);
  }

  lemma {:induction false} RoundsFollow(c: Call, n: nat)
    requires forall i :: 1 <= i <= n ==> RoundAt(c, i).More?
    ensures Follow(Phase(0, Ready, false), Rounds(c, n)) == Some(Phase(n, Ready, false))
  {
    hide Follow, RoundAt;
    if n == 0 {
      FollowNothing(Phase(0, Ready, false));
    } else {
      RoundsFollow(c, n - 1);
      RoundFollows(c, n);
      FollowConcat(Phase(0, Ready, false), Rounds(c, n - 1), RoundAt(c, n).steps);
    }
  }

  lemma FollowNothing(p: Phase)
    ensures Follow(p, []) == Some(p)
  {
  }

  /** Every run obeys the protocol, and never ends with a response open. */
  lemma RunFollowsProtocol(c: Call)
    requires ValidCall(c)
    ensures var end := Follow(Phase(0, Ready, false), Run(c).steps);
            end.Some? && !end.value.stage.Opened? && !end.value.stage.Ran?
  {
    hide Follow, RoundAt, Run, Attempts;
    var n := Attempts(c);
    RunIsItsRounds(c);
    forall i | 1 <= i < n ensures RoundAt(c, i).More? { EarlierRoundsGoOn(c, i); }
    RoundsFollow(c, n - 1);
    RoundFollows(c, n);
    FollowConcat(Phase(0, Ready, false), Rounds(c, n - 1), RoundAt(c, n).steps);
  }

  lemma EarlierRoundsGoOn(c: Call, i: nat)
    requires ValidCall(c) && 1 <= i < Attempts(c)
    ensures RoundAt(c, i).More?
  {
    OnlyTheLastEnds(c, 1, i);
  }

  predicate IsTerminal(s: Step) {
    s.Event? && s.event.kind != Scheduled
  }

  predicate IsActive(s: Step) {
    s.Send? || s.Sleep? || (s.Event? && s.event.kind == Scheduled)
  }

  /** In the protocol nothing is sent, scheduled or slept after an event that is not scheduled. */
  lemma {:induction false} QuietAfterTerminal(p: Phase, t: seq<Step>, i: nat, j: nat)
    requires Follow(p, t).Some? && i < j < |t| && IsTerminal(t[i])
    ensures !IsActive(t[j])
    decreases t
  {
    var next := Next(p, t[0]).value;
    if i > 0 {
      QuietAfterTerminal(next, t[1..], i - 1, j - 1);
    } else {
      OverStaysOver(next, t[1..], j - 1);
    }
  }

  predicate Ending(p: Phase) {
    p.stage.Over? || (p.reported && !p.stage.Ready? && !p.stage.Due?)
  }

  lemma {:induction false} OverStaysOver(p: Phase, t: seq<Step>, j: nat)
    requires Ending(p) && Follow(p, t).Some? && j < |t|
    ensures !IsActive(t[j])
    decreases t
  {
    if j > 0 {
      OverStaysOver(Next(p, t[0]).value, t[1..], j - 1);
    }
  }

  /** After a suppressed or exhausted event a run schedules nothing, sleeps no more and sends no more. */
  lemma NothingAfterTerminal(c: Call, i: nat, j: nat)
    requires ValidCall(c) && i < j < |Run(c).steps| && IsTerminal(Run(c).steps[i])
    ensures !IsActive(Run(c).steps[j])
  {
    RunFollowsProtocol(c);
    QuietAfterTerminal(Phase(0, Ready, false), Run(c).steps, i, j);
  }

  /** Open responses in a trace. */
  function OpenCount(t: seq<Step>): int {
    |Pick(t, OpenStep)| - |Pick(t, CloseStep)|
  }

  lemma {:induction false} OpenMeansOpened(p: Phase, t: seq<Step>)
    requires Follow(p, t).Some?
    ensures OpenCount(t) + (if p.stage.Opened? || p.stage.Ran? then 1 else 0)
         == (var q := Follow(p, t).value; if q.stage.Opened? || q.stage.Ran? then 1 else 0)
    decreases t
  {
    if t != [] {
      OpenMeansOpened(Next(p, t[0]).value, t[1..]);
    }
  }

  /** No response is open when a run sleeps, sends again, or ends: up to there every one opened was closed. */
  lemma ResponsesAreClosed(c: Call, j: nat)
    requires ValidCall(c) && j <= |Run(c).steps|
    requires j < |Run(c).steps| ==> Run(c).steps[j].Sleep? || Run(c).steps[j].Send?
    ensures OpenCount(Run(c).steps[..j]) == 0
  {
    hide Run, OpenCount;
    RunFollowsProtocol(c);
    var t, start := Run(c).steps, Phase(0, Ready, false);
    assert t == t[..j] + t[j..];
    FollowConcat(start, t[..j], t[j..]);
    if j < |t| { assert t[j..][0] == t[j]; }
    OpenMeansOpened(start, t[..j]);
  }

  // ---- what reaches the caller -------------------------------------------------------------------------

  /** The caller gets a user value or a genuine exception, never the private response or wrapper. What the last
      attempt raised is raised unchanged, unless computing its delay failed; a sleep cut short raises what cut it. */
  lemma ErrorTransparency(c: Call)
    requires ValidCall(c)
    ensures var n, out := Attempts(c), Run(c).outcome;
            var last := AttemptAt(c, n).outcome;
            && (out.Returned? ==> out.value.UserValue? && out == last)
            && (out.Raised? ==> out.thrown.Genuine?)
            && (CutShort(c) ==> c.world.asleep(n).Some? && out == Raised(Genuine(c.world.asleep(n).value)))
            && (!CutShort(c) && last.Raised? ==>
                  var failed := ContextAt(c, n).(exception := Some(Unwrap(last.thrown)));
                  || out == Raised(Genuine(Unwrap(last.thrown)))
                  || (ShouldRetry(c.policy, failed)
                      && GetDelay(c.policy, failed, None, SurroundingsAt(c, n, SentAt(c, n))).Err?))
            && (c.world.wire(n).Fails? ==> last.Raised? && Unwrap(last.thrown) == c.world.wire(n).exn)
  {
    hide SentAt, Run, Attempts, AttemptAt, Attempt;
    RunIsItsRounds(c);
    LastVerdict(c);
    if c.world.wire(Attempts(c)).Fails? { FailedSendRaises(c, Attempts(c)); }
  }

  /** What the judgement of the last attempt makes of its outcome. */
  lemma LastVerdict(c: Call)
    requires ValidCall(c)
    ensures var n, last := Attempts(c), AttemptAt(c, Attempts(c)).outcome;
            match JudgedAt(c, n).verdict
            case Again(_) => true
            case Stop(out) =>
              && (out.Returned? ==> out.value.UserValue? && out == last)
              && (out.Raised? ==> out.thrown.Genuine?)
              && (last.Raised? ==>
                    var failed := ContextAt(c, n).(exception := Some(Unwrap(last.thrown)));
                    || out == Raised(Genuine(Unwrap(last.thrown)))
                    || (ShouldRetry(c.policy, failed)
                        && GetDelay(c.policy, failed, None, SurroundingsAt(c, n, SentAt(c, n))).Err?))
  {
    hide SentAt, Attempts, Attempt, GetDelay;
  }

  lemma FailedSendRaises(c: Call, k: nat)
    requires 1 <= k && c.world.wire(k).Fails?
    ensures AttemptAt(c, k).outcome.Raised? && Unwrap(AttemptAt(c, k).outcome.thrown) == c.world.wire(k).exn
  {
    hide SentAt;
    AttemptOutcome(c, k);
  }

  /** Cancelling attempt k, at any of its awaits, ends the run there with that exception, and so does any other that is no
      Exception, such as an interrupt: no event, no sleep and no send follow, whatever exception classes the policy lists. */
  lemma CancellationEndsTheRun(c: Call, k: nat, e: Exn)
    requires ValidCall(c) && 1 <= k <= Attempts(c)
    requires AttemptAt(c, k).outcome == Raised(Genuine(e)) && (CancelledError in e.classes || Exception !in e.classes)
    ensures k == Attempts(c) && Run(c).outcome == Raised(Genuine(e))
    ensures Run(c).steps == Rounds(c, k - 1) + AttemptAt(c, k).steps
  {
    hide SentAt, Run, Attempts, Attempt;
    RunIsItsRounds(c);
    assert RoundAt(c, k) == Last(AttemptAt(c, k).steps + [], Raised(Genuine(e)));
    assert AttemptAt(c, k).steps + [] == AttemptAt(c, k).steps;
    if k < Attempts(c) { EarlierRoundsGoOn(c, k); }
  }

  /** An exception that ends a sleep ends the run: the sleep is its last step. */
  lemma InterruptedSleepEndsTheRun(c: Call, k: nat, e: Exn)
    requires ValidCall(c) && 1 <= k <= Attempts(c)
    requires JudgedAt(c, k).verdict.Again? && c.world.asleep(k) == Some(e)
    ensures k == Attempts(c) && Run(c).outcome == Raised(Genuine(e))
    ensures |Run(c).steps| > 0 && Run(c).steps[|Run(c).steps| - 1] == Sleep(k, JudgedAt(c, k).verdict.event.delay)
  {
    hide SentAt, Run, Attempts, AttemptAt, JudgedAt;
    RunIsItsRounds(c);
    if k < Attempts(c) { EarlierRoundsGoOn(c, k); }
  }

  // ---- one-shot bodies -----------------------------------------------------------------------------------

  /** A body with a one-shot object in a value position, or a verb the policy does not list, is sent exactly once,
      whatever happens to it. */
  lemma NotRepeatableIsSentOnce(c: Call)
    requires ValidCall(c)
    requires (c.job.kwargs.data.Some? && HoldsOneShot(c.job.kwargs.data.value)) || Upper(c.job.verb) !in c.policy.methods
    ensures |Pick(Run(c).steps, SendStep)| == 1 && Pick(Run(c).steps, SleepStep) == []
  {
    hide Pick, Run, Attempts, JudgedAt;
    if c.job.kwargs.data.Some? { ReplayableIff(c.job.kwargs.data.value); }
    SendsAreTheAttempts(c);
    EventsAndSleeps(c);
    if Scheduling(c) > 0 {
      ScheduledRounds(c, 1);
      RescheduledIsSilent(c, 1);
    }
  }

  // ---- time --------------------------------------------------------------------------------------------------

  /** Total time slept. */
  function Slept(t: seq<Step>): real {
    if t == [] then 0.0 else (if t[0].Sleep? then t[0].delay else 0.0) + Slept(t[1..])
  }

  lemma {:induction false} SleptConcat(a: seq<Step>, b: seq<Step>)
    ensures Slept(a + b) == Slept(a) + Slept(b)
  {
    if a == [] {
      assert a + b == b;
    } else {
      assert (a + b)[1..] == a[1..] + b;
      SleptConcat(a[1..], b);
    }
  }

  lemma {:induction false} SleptIsPicked(t: seq<Step>)
    ensures Slept(t) == Slept(Pick(t, SleepStep))
  {
    if t != [] {
      SleptIsPicked(t[1..]);
      var rest := Pick(t[1..], SleepStep);
      assert ([t[0]] + rest)[1..] == rest;
      assert [] + rest == rest;
    }
  }

  /** The default strategy, draws in [0, 1], and no Retry-After in force. */
  ghost predicate JitterOnly(c: Call) {
    c.policy.backoff == FullJitter
    && (forall k :: 0.0 <= c.world.draw(k) <= 1.0)
    && (forall k :: c.world.wire(k).Answers? && c.policy.respectRetryAfter ==> c.world.wire(k).response.retryAfter.None?)
  }

  lemma JitterDelay(c: Call, k: nat)
    requires 1 <= k && JitterOnly(c) && JudgedAt(c, k).verdict.Again?
    ensures 0.0 <= JudgedAt(c, k).verdict.event.delay <= BackoffCap(k)
  {
    hide SentAt;
    AttemptOutcome(c, k);
    var w := SurroundingsAt(c, k, SentAt(c, k));
    var e := JudgedAt(c, k).verdict.event;
    assert e.context.attempt == k;
    assert GetDelay(c.policy, e.context, None, w) == Ok(e.delay);
    JitterWithinCap(c.policy, e.context, w);
  }

  lemma {:induction false} SleptWithinCaps(c: Call, sleeps: seq<Step>, m: nat)
    requires JitterOnly(c) && |sleeps| == m
    requires forall i :: 1 <= i <= m ==> JudgedAt(c, i).verdict.Again?
                                         && sleeps[i - 1] == Sleep(i, JudgedAt(c, i).verdict.event.delay)
    ensures Slept(sleeps) <= CapSum(m)
  {
    hide JudgedAt, BackoffCap;
    if m > 0 {
      JitterDelay(c, m);
      SleptWithinCaps(c, sleeps[..m - 1], m - 1);
      assert sleeps == sleeps[..m - 1] + [sleeps[m - 1]];
      SleptConcat(sleeps[..m - 1], [sleeps[m - 1]]);
      assert Slept([sleeps[m - 1]]) == sleeps[m - 1].delay + Slept([]);
    }
  }

  /** The total sleep over r retries is at most 0.5 * (2^r - 1) seconds for r <= 6, and 30 more for each beyond. */
  lemma TotalSleepBound(c: Call)
    requires ValidCall(c) && JitterOnly(c)
    ensures var t := Run(c).steps;
            var r := |Pick(t, SleepStep)|;
            && (r <= 6 ==> Slept(t) <= 0.5 * (Pow2(r) - 1) as real)
            && (r >= 6 ==> Slept(t) <= 31.5 + 30.0 * (r - 6) as real)
  {
    hide Run, JudgedAt, Pick, Slept, Pow2, CapSum;
    var t := Run(c).steps;
    EventsAndSleeps(c);
    SleptWithinCaps(c, Pick(t, SleepStep), Scheduling(c));
    SleptIsPicked(t);
    CapSumClosedForm(Scheduling(c));
  }

  /** When a retried response carries a valid Retry-After that the policy honours, the next request leaves no
      earlier than the seconds or the date it names (section 10.2.3 of RFC 9110). */
  lemma NextSendWaitsForRetryAfter(c: Call, k: nat)
    requires ValidCall(c) && 1 <= k < Attempts(c) && c.world.late(k) >= 0.0 && c.policy.respectRetryAfter
    requires c.world.wire(k).Answers? && c.world.wire(k).closeError.None? && c.world.wire(k).response.retryAfter.Some?
    requires DecideStatus(ModeAt(c, k), c.world.wire(k).response.status).RetryIt?
    ensures var value := Strip(c.world.wire(k).response.retryAfter.value);
            var answered := SentAt(c, k) + c.world.took(k);
            var sends := Pick(Run(c).steps, SendStep);
            k < |sends| && var next := sends[k];
            next.Send? && next.attempt == k + 1
            && (value != "" && AllDigits(value) ==> next.at >= answered + DigitsValue(value) as real)
            && (!(value != "" && AllDigits(value)) && c.world.parseDate(value).Some? ==>
                  next.at >= c.world.parseDate(value).value)
  {
    hide Run, Pick, Attempts, SentAt;
    SendsAreTheAttempts(c);
    EarlierRoundsGoOn(c, k);
    WakesOnTime(c, k);
    AttemptOutcome(c, k);
    var w := SurroundingsAt(c, k, SentAt(c, k));
    var retryAfter := c.world.wire(k).response.retryAfter.value;
    if ParseRetryAfter(retryAfter, w).Some? {
      RetryAfterIsHonoured(c.policy, StatusContext(ContextAt(c, k), c.world.wire(k).response.status), retryAfter, w);
    }
  }

  /** When an attempt that would be repeated gets a Retry-After numeral too long for a float, the run ends there with a
      ValueError: no event, no sleep and no send follow. */
  lemma TooLongRetryAfterEndsTheRun(c: Call, k: nat)
    requires ValidCall(c) && 1 <= k <= Attempts(c)
    requires Repeatable(c, k) && RetryableResponse(c, k)
    requires c.policy.respectRetryAfter && c.world.wire(k).response.retryAfter.Some?
    requires var value := Strip(c.world.wire(k).response.retryAfter.value);
             value != "" && AllDigits(value) && DigitsValue(value) >= FLOAT_LIMIT
    ensures k == Attempts(c) && Run(c).outcome == Raised(Genuine(Own(ValueError)))
    ensures Run(c).steps == Rounds(c, k - 1) + AttemptAt(c, k).steps
  {
    hide SentAt, Run, Attempts, Attempt, Strip, AllDigits, DigitsValue, IsReplayable;
    RunIsItsRounds(c);
    TooLongIsJudged(c, k);
    assert AttemptAt(c, k).steps + [] == AttemptAt(c, k).steps;
    if k < Attempts(c) { EarlierRoundsGoOn(c, k); }
  }

  lemma TooLongIsJudged(c: Call, k: nat)
    requires 1 <= k && Repeatable(c, k) && RetryableResponse(c, k)
    requires c.policy.respectRetryAfter && c.world.wire(k).response.retryAfter.Some?
    requires var value := Strip(c.world.wire(k).response.retryAfter.value);
             value != "" && AllDigits(value) && DigitsValue(value) >= FLOAT_LIMIT
    ensures JudgedAt(c, k) == Judgement([], Stop(Raised(Genuine(Own(ValueError)))))
  {
    hide SentAt, Attempt, Strip, AllDigits, DigitsValue, IsReplayable, CanBeSentAgain;
    IsReplayableIff(c.job.kwargs);
    AttemptOutcome(c, k);
  }
}
