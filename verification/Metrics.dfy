/** The Prometheus sink. A labelled counter is the multiset of the label tuples it was incremented with:
    its value for a tuple is the multiplicity, its total the size. */
module Metrics {
  import opened Wrappers
  import opened Exceptions
  import opened Engine

  datatype RequestKey = RequestKey(labels: Labels, status: StatusLabel, outcome: OutcomeLabel)
  datatype LatencyKey = LatencyKey(labels: Labels, isResponse: bool)
  datatype ErrorKey = ErrorKey(labels: Labels, error: ErrorLabel)

  datatype Counters = Counters(
    requests: multiset<RequestKey>,      // requests_total
    latency: multiset<LatencyKey>,       // request_seconds, its observations
    errors: multiset<ErrorKey>,          // errors_total
    inFlight: map<Labels, int>)          // in_flight

  const ZERO := Counters(multiset{}, multiset{}, multiset{}, map[])

  function Gauge(s: Counters, labels: Labels): int {
    if labels in s.inFlight then s.inFlight[labels] else 0
  }

  /** What a hook call does to the counters. */
  function Applied(s: Counters, call: SinkCall): Counters {
    match call
    case Started(labels) => s.(inFlight := s.inFlight[labels := Gauge(s, labels) + 1])
    case Ended(labels) => s.(inFlight := s.inFlight[labels := Gauge(s, labels) - 1])
    case Observed(labels, status, outcome, error) =>
      Counters(s.requests + multiset{RequestKey(labels, status, outcome)},
               s.latency + multiset{LatencyKey(labels, outcome == Response)},
               if error.Some? && error.value != NoError then s.errors + multiset{ErrorKey(labels, error.value)} else s.errors,
               s.inFlight)
  }

  class PrometheusSink {
    var requests: multiset<RequestKey>
    var latency: multiset<LatencyKey>
    var errors: multiset<ErrorKey>
    var inFlight: map<Labels, int>

    function State(): Counters
      reads this
    {
      Counters(requests, latency, errors, inFlight)
    }

    constructor ()
      ensures State() == ZERO
    {
      requests, latency, errors, inFlight := multiset{}, multiset{}, multiset{}, map[];
    }

    method OnRequestStart(labels: Labels)
      modifies this
      ensures State() == Applied(old(State()), Started(labels))
    {
      inFlight := inFlight[labels := (if labels in inFlight then inFlight[labels] else 0) + 1];
    }

    method OnRequestEnd(labels: Labels)
      modifies this
      ensures State() == Applied(old(State()), Ended(labels))
    {
      inFlight := inFlight[labels := (if labels in inFlight then inFlight[labels] else 0) - 1];
    }

    method ObserveRequest(labels: Labels, status: StatusLabel, outcome: OutcomeLabel, error: Option<ErrorLabel>)
      modifies this
      ensures State() == Applied(old(State()), Observed(labels, status, outcome, error))
    {
      ghost var after := Applied(State(), Observed(labels, status, outcome, error));
      requests := requests + multiset{RequestKey(labels, status, outcome)};
      latency := latency + multiset{LatencyKey(labels, outcome == Response)};
      if error.Some? && error.value != NoError {
        errors := errors + multiset{ErrorKey(labels, error.value)};
      }
      assert requests == after.requests && latency == after.latency && errors == after.errors;
    }
  }

  function AppliedStep(s: Counters, step: Step): Counters {
    if step.Metric? then Applied(s, step.call) else s
  }

  /** The counters after a trace. */
  function AppliedAll(s: Counters, t: seq<Step>): Counters
    decreases t
  {
    if t == [] then s else AppliedAll(AppliedStep(s, t[0]), t[1..])
  }

  lemma {:induction false} AppliedConcat(s: Counters, a: seq<Step>, b: seq<Step>)
    ensures AppliedAll(s, a + b) == AppliedAll(AppliedAll(s, a), b)
    decreases a
  {
    if a == [] {
      assert a + b == b;
    } else {
      assert (a + b)[1..] == a[1..] + b;
      AppliedConcat(AppliedStep(s, a[0]), a[1..], b);
    }
  }

  // ---- counting in a labelled counter ------------------------------------------------------------------

  /** The sum of a counter over the label tuples that satisfy p. */
  ghost function CountIf<K>(m: multiset<K>, p: K -> bool): nat
    decreases |m|
  {
    if m == multiset{} then 0
    else
      var key :| key in m;
      (if p(key) then m[key] else 0) + CountIf(m[key := 0], p)
  }

  lemma CountIfNothing<K>(p: K -> bool)
    ensures CountIf(multiset{}, p) == 0
  {
  }

  /** It does not matter which label tuple is taken out first. */
  lemma {:induction false} CountIfTakeOut<K>(m: multiset<K>, p: K -> bool, key: K)
    requires key in m
    ensures CountIf(m, p) == (if p(key) then m[key] else 0) + CountIf(m[key := 0], p)
    decreases |m|
  {
    var first :| first in m && CountIf(m, p) == (if p(first) then m[first] else 0) + CountIf(m[first := 0], p);
    if first != key {
      CountIfTakeOut(m[first := 0], p, key);
      CountIfTakeOut(m[key := 0], p, first);
      assert m[first := 0][key := 0] == m[key := 0][first := 0];
    }
  }

  /** One increment adds one where the label tuple satisfies p. */
  lemma CountIfAdd<K>(m: multiset<K>, p: K -> bool, key: K)
    ensures CountIf(m + multiset{key}, p) == CountIf(m, p) + if p(key) then 1 else 0
  {
    var more := m + multiset{key};
    CountIfTakeOut(more, p, key);
    assert more[key := 0] == m[key := 0];
    if key in m {
      CountIfTakeOut(m, p, key);
    } else {
      assert m[key := 0] == m;
    }
  }

  function HasOutcome(outcome: OutcomeLabel): RequestKey -> bool {
    (key: RequestKey) => key.outcome == outcome
  }

  function ResponseRequests(labels: Labels): RequestKey -> bool {
    (key: RequestKey) => key.labels == labels && key.outcome == Response
  }

  // ---- the observations of a trace ---------------------------------------------------------------------

  /** The observe_request calls of a trace, in order. */
  function Observations(t: seq<Step>): (r: seq<SinkCall>)
    ensures forall o :: o in r ==> o.Observed?
  {
    if t == [] then []
    else (if t[0].Metric? && t[0].call.Observed? then [t[0].call] else []) + Observations(t[1..])
  }

  lemma {:induction false} ObservationsConcat(a: seq<Step>, b: seq<Step>)
    ensures Observations(a + b) == Observations(a) + Observations(b)
  {
    if a == [] {
      assert a + b == b;
    } else {
      assert (a + b)[1..] == a[1..] + b;
      ObservationsConcat(a[1..], b);
    }
  }

  datatype Fate = Succeeded | WasCancelled | Failed

  function FateOf(call: SinkCall): Fate
    requires call.Observed?
  {
    if call.error.None? then Succeeded else if call.error.value == NoError then WasCancelled else Failed
  }

  function Tally(calls: seq<SinkCall>, fate: Fate): nat
    requires forall o :: o in calls ==> o.Observed?
  {
    if calls == [] then 0 else (if FateOf(calls[0]) == fate then 1 else 0) + Tally(calls[1..], fate)
  }

  /** What every observation of the client satisfies: the error label is "none" exactly for a cancellation. */
  predicate Sound(call: SinkCall)
    requires call.Observed?
  {
    FateOf(call).WasCancelled? <==> call.outcome == Cancelled
  }

  lemma {:induction false} TallyIsExhaustive(calls: seq<SinkCall>)
    requires forall o :: o in calls ==> o.Observed?
    ensures Tally(calls, Succeeded) + Tally(calls, WasCancelled) + Tally(calls, Failed) == |calls|
  {
    if calls != [] { TallyIsExhaustive(calls[1..]); }
  }

  /** The counters `after` are `before` plus some observations of each fate, and the histogram's response buckets
      for a label tuple grow with the counter's. */
  ghost predicate Counted(before: Counters, after: Counters, all: nat, cancelled: nat, failed: nat, labels: Labels) {
    && |after.requests| == |before.requests| + all
    && |after.latency| == |before.latency| + all
    && |after.errors| == |before.errors| + failed
    && CountIf(after.requests, HasOutcome(Cancelled)) == CountIf(before.requests, HasOutcome(Cancelled)) + cancelled
    && CountIf(after.requests, ResponseRequests(labels)) - after.latency[LatencyKey(labels, true)]
       == CountIf(before.requests, ResponseRequests(labels)) - before.latency[LatencyKey(labels, true)]
  }

  lemma OneCounted(s: Counters, o: SinkCall, labels: Labels)
    requires o.Observed? && Sound(o)
    ensures Counted(s, Applied(s, o), 1, if FateOf(o).WasCancelled? then 1 else 0, if FateOf(o).Failed? then 1 else 0, labels)
  {
    hide CountIf;
    var key := RequestKey(o.labels, o.status, o.outcome);
    CountIfAdd(s.requests, HasOutcome(Cancelled), key);
    CountIfAdd(s.requests, ResponseRequests(labels), key);
  }

  /** What a trace adds to the counters. */
  lemma {:induction false} TraceCounts(s: Counters, t: seq<Step>, labels: Labels)
    requires forall o :: o in Observations(t) ==> Sound(o)
    ensures var seen := Observations(t);
            Counted(s, AppliedAll(s, t), |seen|, Tally(seen, WasCancelled), Tally(seen, Failed), labels)
    decreases t
  {
    hide CountIf, Applied;
    if t != [] {
      var rest := Observations(t[1..]);
      if t[0].Metric? && t[0].call.Observed? {
        assert Observations(t) == [t[0].call] + rest;
        assert t[0].call in Observations(t) && ([t[0].call] + rest)[1..] == rest;
        OneCounted(s, t[0].call, labels);
      } else {
        assert Observations(t) == rest;
        if t[0].Metric? { HookCountsNothing(s, t[0].call, labels); }
      }
      TraceCounts(AppliedStep(s, t[0]), t[1..], labels);
    }
  }

  lemma HookCountsNothing(s: Counters, call: SinkCall, labels: Labels)
    requires !call.Observed?
    ensures Counted(s, Applied(s, call), 0, 0, 0, labels)
  {
  }

  // ---- label by label ------------------------------------------------------------------------------------

  /** How many of the calls satisfy p. */
  function HowMany(calls: seq<SinkCall>, p: SinkCall -> bool): nat {
    if calls == [] then 0 else (if p(calls[0]) then 1 else 0) + HowMany(calls[1..], p)
  }

  /** How often a hook is called in a trace. */
  function TimesCalled(t: seq<Step>, call: SinkCall): nat {
    if t == [] then 0 else (if t[0] == Metric(call) then 1 else 0) + TimesCalled(t[1..], call)
  }

  function ReportsOutcome(labels: Labels, status: StatusLabel, outcome: OutcomeLabel): SinkCall -> bool {
    (o: SinkCall) => o.Observed? && o.labels == labels && o.status == status && o.outcome == outcome
  }

  function ReportsError(labels: Labels, error: ErrorLabel): SinkCall -> bool {
    (o: SinkCall) => o.Observed? && o.labels == labels && o.error == Some(error)
  }

  function ReportsResponse(labels: Labels, isResponse: bool): SinkCall -> bool {
    (o: SinkCall) => o.Observed? && o.labels == labels && (o.outcome == Response <==> isResponse)
  }

  /** Every counter grows, for each tuple of labels, by the observations with these labels: requests_total by those with
      the client, method, route, operation, status and outcome; errors_total by those with the error type, except `none`;
      the histogram by the responses and by the others; and the gauge by the starts less the ends. */
  lemma {:induction false} CountsByLabels(s: Counters, t: seq<Step>, labels: Labels, status: StatusLabel,
                                          outcome: OutcomeLabel, error: ErrorLabel, isResponse: bool)
    ensures var after, seen := AppliedAll(s, t), Observations(t);
            var request, failure := RequestKey(labels, status, outcome), ErrorKey(labels, error);
            var seconds := LatencyKey(labels, isResponse);
            && after.requests[request] == s.requests[request] + HowMany(seen, ReportsOutcome(labels, status, outcome))
            && after.errors[failure] == s.errors[failure] + (if error == NoError then 0 else HowMany(seen, ReportsError(labels, error)))
            && after.latency[seconds] == s.latency[seconds] + HowMany(seen, ReportsResponse(labels, isResponse))
            && Gauge(after, labels) == Gauge(s, labels) + TimesCalled(t, Started(labels)) - TimesCalled(t, Ended(labels))
    decreases t
  {
    hide Applied, Gauge;
    if t != [] {
      var rest := Observations(t[1..]);
      if t[0].Metric? {
        CallByLabels(s, t[0].call, labels, status, outcome, error, isResponse);
        if t[0].call.Observed? {
          assert Observations(t) == [t[0].call] + rest && ([t[0].call] + rest)[1..] == rest;
        }
      }
      if !(t[0].Metric? && t[0].call.Observed?) {
        assert Observations(t) == rest;
      }
      CountsByLabels(AppliedStep(s, t[0]), t[1..], labels, status, outcome, error, isResponse);
    }
  }

  /** What one call adds. */
  lemma CallByLabels(s: Counters, o: SinkCall, labels: Labels, status: StatusLabel, outcome: OutcomeLabel, error: ErrorLabel,
                     isResponse: bool)
    ensures var after := Applied(s, o);
            var request, failure := RequestKey(labels, status, outcome), ErrorKey(labels, error);
            var seconds := LatencyKey(labels, isResponse);
            && after.requests[request] == s.requests[request] + (if ReportsOutcome(labels, status, outcome)(o) then 1 else 0)
            && after.errors[failure]
               == s.errors[failure] + (if error != NoError && ReportsError(labels, error)(o) then 1 else 0)
            && after.latency[seconds] == s.latency[seconds] + (if ReportsResponse(labels, isResponse)(o) then 1 else 0)
            && Gauge(after, labels)
               == Gauge(s, labels) + (if o == Started(labels) then 1 else 0) - (if o == Ended(labels) then 1 else 0)
  {
  }
}
