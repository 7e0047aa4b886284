/** The retry policy: which outcomes are retried, why a retry is suppressed, and how long to wait. */
module Retry {
  import opened Wrappers
  import opened Strings
  import opened Exceptions

  // ---- context -------------------------------------------------------------------------------

  datatype RetryContext = RetryContext(
    verb: string, url: string, attempt: int, maxAttempts: int, replayable: bool,
    responseStatus: Option<int>, exception: Option<Exn>)

  ghost predicate ValidContext(c: RetryContext) {
    1 <= c.attempt <= c.maxAttempts
    && !(c.responseStatus.Some? && c.exception.Some?)
    && c.verb == Upper(c.verb)
  }

  /** RetryContext(...), with the checks of __post_init__. */
  function NewContext(verb: string, url: string, attempt: int, maxAttempts: int, replayable: bool,
                      responseStatus: Option<int>, exception: Option<Exn>): (r: Result<RetryContext, Exn>)
    ensures r.Ok? <==> 1 <= attempt <= maxAttempts && !(responseStatus.Some? && exception.Some?)
    ensures r.Ok? ==> ValidContext(r.value)
    ensures r.Ok? ==> r.value == RetryContext(Upper(verb), url, attempt, maxAttempts, replayable, responseStatus, exception)
    ensures r.Err? ==> r.error == Own(ValueError)
  {
    if maxAttempts < 1 then Err(Own(ValueError))
    else if !(1 <= attempt <= maxAttempts) then Err(Own(ValueError))
    else if responseStatus.Some? && exception.Some? then Err(Own(ValueError))
    else
      UpperTwice(verb);
      Ok(RetryContext(Upper(verb), url, attempt, maxAttempts, replayable, responseStatus, exception))
  }

  /** replace(c, response_status=status): the checks run again on the copy. */
  function WithStatus(c: RetryContext, status: int): Result<RetryContext, Exn> {
    NewContext(c.verb, c.url, c.attempt, c.maxAttempts, c.replayable, Some(status), c.exception)
  }

  /** replace(c, exception=e) */
  function WithException(c: RetryContext, e: Exn): Result<RetryContext, Exn> {
    NewContext(c.verb, c.url, c.attempt, c.maxAttempts, c.replayable, c.responseStatus, Some(e))
  }

  // ---- policy --------------------------------------------------------------------------------

  datatype BackoffResult = Seconds(seconds: real) | NotFinite | Raises(exn: Exn)

  datatype Backoff = FullJitter | Custom(strategy: RetryContext -> BackoffResult)

  datatype RetryPolicy = RetryPolicy(
    maxAttempts: int, statuses: set<int>, exceptions: seq<Class>, methods: set<string>,
    backoff: Backoff, respectRetryAfter: bool)

  datatype Reason = StatusReason | ExceptionReason | MethodNotAllowed | BodyNotReplayable | AttemptsExhausted

  /** RetryPolicy(...), with the checks of __post_init__ in their order. */
  function NewPolicy(maxAttempts: int, statuses: set<int>, exceptions: seq<Class>, methods: set<string>,
                     backoff: Backoff, respectRetryAfter: bool): (r: Result<RetryPolicy, Exn>)
    ensures r.Ok? <==> maxAttempts >= 1 && (forall s :: s in statuses ==> 100 <= s <= 599) && "" !in methods
    ensures r.Ok? ==> r.value == RetryPolicy(maxAttempts, statuses, exceptions, r.value.methods, backoff, respectRetryAfter)
    ensures r.Ok? ==> forall u :: u in r.value.methods <==> exists m :: m in methods && u == Upper(m)
    ensures r.Err? ==> r.error == Own(ValueError)
  {
    var upper := set m | m in methods :: Upper(m);
    assert forall m :: m in methods ==> |Upper(m)| == |m| && Upper(m) in upper;
    if maxAttempts < 1 then Err(Own(ValueError))
    else if exists s :: s in statuses && !(100 <= s <= 599) then Err(Own(ValueError))
    else if "" in upper then
      assert "" in methods;
      Err(Own(ValueError))
    else
      assert "" !in methods by { assert Upper("") == ""; }
      assert forall m :: m in upper ==> m == Upper(m) by {
        forall m | m in methods { UpperTwice(m); }
      }
      Ok(RetryPolicy(maxAttempts, statuses, exceptions, upper, backoff, respectRetryAfter))
  }

  /** Methods are compared without regard to case, on both sides: the policy's and the request's. */
  lemma MethodsIgnoreCase(maxAttempts: int, statuses: set<int>, exceptions: seq<Class>, methods: set<string>,
                          backoff: Backoff, respectRetryAfter: bool, verb: string)
    requires NewPolicy(maxAttempts, statuses, exceptions, methods, backoff, respectRetryAfter).Ok?
    ensures var p := NewPolicy(maxAttempts, statuses, exceptions, methods, backoff, respectRetryAfter).value;
            && (forall m :: m in p.methods ==> m != "" && m == Upper(m))
            && (Upper(verb) in p.methods <==> exists m :: m in methods && Upper(m) == Upper(verb))
  {
    forall m | m in methods ensures Upper(Upper(m)) == Upper(m) && |Upper(m)| == |m| { UpperTwice(m); }
  }

  /** RetryPolicy._matches_outcome */
  predicate MatchesOutcome(p: RetryPolicy, c: RetryContext) {
    if c.exception.Some? && IsInstance(c.exception.value, CancelledError) then false
    else if c.responseStatus.Some? then c.responseStatus.value in p.statuses
    else c.exception.Some? && IsInstanceOfAny(c.exception.value, p.exceptions)
  }

  /** RetryPolicy._suppression_reason */
  function SuppressionReason(p: RetryPolicy, c: RetryContext): Option<Reason> {
    if !MatchesOutcome(p, c) then None
    else if c.verb !in p.methods then Some(MethodNotAllowed)
    else if !c.replayable then Some(BodyNotReplayable)
    else if c.attempt >= p.maxAttempts then Some(AttemptsExhausted)
    else None
  }

  /** RetryPolicy.should_retry */
  predicate ShouldRetry(p: RetryPolicy, c: RetryContext) {
    MatchesOutcome(p, c) && c.verb in p.methods && c.replayable && c.attempt < p.maxAttempts
  }

  /** The public predicate and the reason the engine computes never disagree. */
  lemma ShouldRetryIffNotSuppressed(p: RetryPolicy, c: RetryContext)
    ensures ShouldRetry(p, c) <==> MatchesOutcome(p, c) && SuppressionReason(p, c) == None
  {
  }

  // ---- events --------------------------------------------------------------------------------

  datatype Kind = Scheduled | Suppressed | Exhausted

  datatype RetryEvent = RetryEvent(kind: Kind, context: RetryContext, delay: real, reason: Reason)

  /** RetryEvent(...), with the check of __post_init__. */
  function NewEvent(kind: Kind, context: RetryContext, delay: real, reason: Reason): (r: Result<RetryEvent, Exn>)
    ensures r == if delay >= 0.0 then Ok(RetryEvent(kind, context, delay, reason)) else Err(Own(ValueError))
  {
    if delay < 0.0 then Err(Own(ValueError)) else Ok(RetryEvent(kind, context, delay, reason))
  }

  function KindOf(reason: Reason): Kind {
    if reason == AttemptsExhausted then Exhausted else Suppressed
  }

  // ---- delays --------------------------------------------------------------------------------

  function Pow2(n: nat): nat {
    if n == 0 then 1 else 2 * Pow2(n - 1)
  }

  /** The cap of the default strategy: 0.5 seconds, doubled per failed attempt, at most 30. */
  function BackoffCap(attempt: int): (cap: real)
    requires attempt >= 1
    ensures 0.0 <= cap <= 30.0
  {
    var doubled := 0.5 * Pow2(attempt - 1) as real;
    if doubled <= 30.0 then doubled else 30.0
  }

  /** random.uniform(0, cap), for a draw of random.random() in [0, 1]. */
  function Uniform(cap: real, draw: real): real {
    draw * cap
  }

  /** full_jitter_backoff. 0.5 * 2**1024 does not fit a float. */
  function JitterBackoff(attempt: int, draw: real): BackoffResult
    requires attempt >= 1
  {
    if attempt > 1024 then Raises(Own(OverflowError)) else Seconds(Uniform(BackoffCap(attempt), draw))
  }

  /** What get_delay reads from its surroundings: the time, the date parser, the random draw. */
  datatype Surroundings = Surroundings(now: real, parseDate: string -> Option<real>, draw: real)

  ghost predicate UnitDraw(w: Surroundings) {
    0.0 <= w.draw <= 1.0
  }

  /** 2^1024 - 2^970: numerals from here on are read as the infinite float. */
  const FLOAT_LIMIT: int :=
    179769313486231580793728971405303415079934132710037826936173778980444968292764750946649017977587207096330286416692887910946555547851940402630657488671505820681908902000708383676273854845817711531764475730270069855571366959622842914819860834936475292719074168444365510704342711559699508093042880177904174497792

  /** _parse_retry_after: delta-seconds, else an HTTP date, else nothing. */
  function ParseRetryAfter(value: string, w: Surroundings): Option<BackoffResult> {
    var stripped := Strip(value);
    if stripped != "" && AllDigits(stripped) then
      Some(if DigitsValue(stripped) >= FLOAT_LIMIT then NotFinite else Seconds(DigitsValue(stripped) as real))
    else
      match w.parseDate(stripped)
      case None => None
      case Some(at) => Some(Seconds(if at - w.now >= 0.0 then at - w.now else 0.0))
  }

  function RunBackoff(p: RetryPolicy, c: RetryContext, w: Surroundings): BackoffResult
    requires c.attempt >= 1
  {
    match p.backoff
    case FullJitter => JitterBackoff(c.attempt, w.draw)
    case Custom(strategy) => strategy(c)
  }

  /** The Retry-After value that takes precedence over the backoff strategy, if any. */
  function HonouredRetryAfter(p: RetryPolicy, retryAfter: Option<string>, w: Surroundings): Option<BackoffResult> {
    if p.respectRetryAfter && retryAfter.Some? then ParseRetryAfter(retryAfter.value, w) else None
  }

  /** RetryPolicy.get_delay: the delay, or what it raises. */
  function GetDelay(p: RetryPolicy, c: RetryContext, retryAfter: Option<string>, w: Surroundings)
    : (r: Result<real, Exn>)
    requires c.attempt >= 1
    ensures r.Ok? ==> r.value >= 0.0
  {
    var honoured := HonouredRetryAfter(p, retryAfter, w);
    match if honoured.Some? then honoured.value else RunBackoff(p, c, w)
    case Raises(e) => Err(e)
    case NotFinite => Err(Own(ValueError))
    case Seconds(s) => if s < 0.0 then Err(Own(ValueError)) else Ok(s)
  }

  /** A Retry-After that can be read gives a delay exactly unless it is a number too long for a float, which is an error
      and not a fallback to the backoff; and the wait ends no earlier than it demands (section 10.2.3 of RFC 9110). */
  lemma RetryAfterIsHonoured(p: RetryPolicy, c: RetryContext, value: string, w: Surroundings)
    requires c.attempt >= 1 && p.respectRetryAfter && ParseRetryAfter(value, w).Some?
    ensures var r := GetDelay(p, c, Some(value), w);
            var stripped := Strip(value);
            if stripped != "" && AllDigits(stripped) then
              && (r.Ok? <==> DigitsValue(stripped) < FLOAT_LIMIT)
              && (r.Ok? ==> r.value == DigitsValue(stripped) as real)
              && (r.Err? ==> r.error == Own(ValueError))
            else
              && r.Ok? && w.now + r.value >= w.parseDate(stripped).value
              && (r.value > 0.0 ==> w.now + r.value == w.parseDate(stripped).value)
  {
    hide Strip, DigitsValue;
  }

  /** Any other Retry-After is as none: one that the policy does not respect, or that is neither digits nor a date. */
  lemma OtherRetryAfterIsNone(p: RetryPolicy, c: RetryContext, value: string, w: Surroundings)
    requires c.attempt >= 1
    requires !p.respectRetryAfter
             || (var stripped := Strip(value); (stripped == "" || !AllDigits(stripped)) && w.parseDate(stripped).None?)
    ensures GetDelay(p, c, Some(value), w) == GetDelay(p, c, None, w)
  {
    hide Strip, AllDigits;
  }

  /** Without one, a strategy of the caller decides alone: its value, if that is finite and not negative, is the delay,
      and any other value is a ValueError. */
  lemma StrategyDecides(p: RetryPolicy, c: RetryContext, w: Surroundings)
    requires c.attempt >= 1 && p.backoff.Custom?
    ensures var r := GetDelay(p, c, None, w);
            match p.backoff.strategy(c)
            case Seconds(s) => r == if s >= 0.0 then Ok(s) else Err(Own(ValueError))
            case NotFinite => r == Err(Own(ValueError))
            case Raises(e) => r == Err(e)
  {
  }

  lemma {:induction false} NumeralIsStripped(s: string)
    requires s != "" && AllDigits(s)
    ensures Strip(s) == s
  {
    assert s[0] in s && s[|s| - 1] in s;
  }

  /** Every numeral from the limit on is such an error, also under a policy whose backoff would give a delay. */
  lemma LongNumeralIsAnError(p: RetryPolicy, c: RetryContext, n: nat, w: Surroundings)
    requires c.attempt >= 1 && p.respectRetryAfter && n >= FLOAT_LIMIT
    ensures GetDelay(p, c, Some(Decimal(n)), w) == Err(Own(ValueError))
  {
    hide Strip, Decimal, DigitsValue;
    DecimalRoundTrip(n);
    NumeralIsStripped(Decimal(n));
  }

  /** The default strategy never exceeds its cap, and fails only past attempt 1024. */
  lemma JitterWithinCap(p: RetryPolicy, c: RetryContext, w: Surroundings)
    requires c.attempt >= 1 && p.backoff == FullJitter && UnitDraw(w)
    ensures var r := GetDelay(p, c, None, w);
            (r.Ok? <==> c.attempt <= 1024) && (r.Ok? ==> 0.0 <= r.value <= BackoffCap(c.attempt))
  {
    hide BackoffCap, Uniform;
    UniformWithin(BackoffCap(c.attempt), w.draw);
  }

  /** The default strategy draws from the whole range: every delay from nothing to the cap comes from one draw of
      random.random(), a larger draw waits longer, and the largest waits for the cap. */
  lemma JitterIsUniform(p: RetryPolicy, c: RetryContext, w: Surroundings, d: real, less: real, more: real)
    requires 1 <= c.attempt <= 1024 && p.backoff == FullJitter
    requires 0.0 <= d <= BackoffCap(c.attempt) && 0.0 <= less < more <= 1.0
    ensures exists draw :: 0.0 <= draw <= 1.0 && GetDelay(p, c, None, w.(draw := draw)) == Ok(d)
    ensures var r, r' := GetDelay(p, c, None, w.(draw := less)), GetDelay(p, c, None, w.(draw := more));
            r.Ok? && r'.Ok? && r.value < r'.value
    ensures GetDelay(p, c, None, w.(draw := 1.0)) == Ok(BackoffCap(c.attempt))
  {
    hide GetDelay, BackoffCap, Uniform;
    var cap := BackoffCap(c.attempt);
    CapIsPositive(c.attempt);
    var draw := d / cap;
    Quotient(d, cap);
    JitterIs(p, c, w.(draw := draw));
    JitterIs(p, c, w.(draw := 1.0));
    JitterIs(p, c, w.(draw := less));
    JitterIs(p, c, w.(draw := more));
    UniformGrows(cap, less, more);
  }

  /** The delay of the default strategy. */
  lemma JitterIs(p: RetryPolicy, c: RetryContext, w: Surroundings)
    requires 1 <= c.attempt <= 1024 && p.backoff == FullJitter && UnitDraw(w)
    ensures var r := GetDelay(p, c, None, w); r.Ok? && r.value == Uniform(BackoffCap(c.attempt), w.draw)
  {
    hide BackoffCap;
    var cap := BackoffCap(c.attempt);
    UniformWithin(cap, w.draw);
  }

  lemma CapIsPositive(attempt: int)
    requires attempt >= 1
    ensures BackoffCap(attempt) > 0.0
  {
    Pow2Positive(attempt - 1);
  }

  lemma {:induction false} Pow2Positive(n: nat)
    ensures Pow2(n) >= 1
  {
    if n > 0 { Pow2Positive(n - 1); }
  }

  lemma Quotient(x: real, y: real)
    requires 0.0 <= x <= y && y > 0.0
    ensures 0.0 <= x / y <= 1.0 && Uniform(y, x / y) == x && Uniform(y, 1.0) == y
  {
  }

  lemma UniformGrows(cap: real, less: real, more: real)
    requires less < more && cap > 0.0
    ensures Uniform(cap, less) < Uniform(cap, more)
  {
  }

  lemma ProductIsNotNegative(x: real, y: real)
    requires x >= 0.0 && y >= 0.0
    ensures x * y >= 0.0
  {
  }

  lemma ProductDistributes(x: real, y: real)
    ensures (1.0 - x) * y == y - x * y
  {
  }

  lemma UniformWithin(cap: real, draw: real)
    requires cap >= 0.0 && 0.0 <= draw <= 1.0
    ensures 0.0 <= Uniform(cap, draw) <= cap
  {
    ProductIsNotNegative(draw, cap);
    ProductIsNotNegative(1.0 - draw, cap);
    ProductDistributes(draw, cap);
  }

  /** The sum of the first r caps. */
  function CapSum(r: nat): real {
    if r == 0 then 0.0 else CapSum(r - 1) + BackoffCap(r)
  }

  /** 0.5 * (2^r - 1) for the first six retries, then 30 seconds each. */
  lemma {:induction false} CapSumClosedForm(r: nat)
    ensures r <= 6 ==> CapSum(r) == 0.5 * (Pow2(r) - 1) as real
    ensures r >= 6 ==> CapSum(r) == 31.5 + 30.0 * (r - 6) as real
  {
    if r > 0 {
      CapSumClosedForm(r - 1);
      if r <= 6 {
        Pow2UpTo(r);
      } else {
        Pow2AtLeast(r - 1);
      }
    }
    if r == 6 { Pow2UpTo(6); }
  }

  lemma Pow2UpTo(r: nat)
    requires r <= 6
    ensures Pow2(r) == [1, 2, 4, 8, 16, 32, 64][r]
  {
  }

  lemma {:induction false} Pow2AtLeast(n: nat)
    requires n >= 6
    ensures Pow2(n) >= 64
  {
    if n > 6 { Pow2AtLeast(n - 1); } else { Pow2UpTo(6); }
  }
}
