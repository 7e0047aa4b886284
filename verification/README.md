# asyncly: a verified model

This project models the hard parts of asyncly, a typed HTTP client library with a mock server and a release tool, and
proves properties of them for every input, every run and every reachable state.

- **Retry engine** (`Retry`, `Engine`, `Client`, `RunProperties`, `RunEvents`, `RunSafety`). The environment of one logical request is
  an arbitrary script of physical outcomes: responses, transport errors inside or outside the middleware stack,
  exceptions while a response is handled or released, cancellations, sleeps cut short. `Engine` is the recursive
  specification of an attempt, of its judgement and of the run; `Client.HttpClient` is the client as an object whose loop
  works step by step and is proved to refine it, with the trailing `RuntimeError` unreachable. `RunProperties`,
  `RunEvents` and `RunSafety` prove what every run keeps, and what it sends, reports and ends with.
- **Instrumentation** (`Exceptions`, `Handlers`, `Routes`, `Metrics`, `Instrumentation`, `Interleaving`,
  `InterleavedMetrics`). A client under any sink makes the same run as without one if its handlers take the responses
  it meets alike by name and by position, and, with a backoff that keeps no state, only if they do; what it reports is one
  fair observation for each physical attempt; and any number of requests, with and without a policy, interleaved at their awaits while metrics are switched on and off, stay
  independent and keep the gauge, requests_total, errors_total and the histogram's counts exact.
- **Headers** (`Request`, `Headers`). Auth arguments become headers, a plain-HTTP proxy relays them: what each hop sees.
- **Mock server** (`Matching`, `MockServer`, `ClosedLoop`). Route grouping, the dispatcher, the doubly indexed history,
  response sequences and the assertions, in every reachable state; and one theorem about the client talking to the server.
- **Release tool** (`Strings`, `Release`, `ReleaseNotes`, `AtomicWrite`). Versions, the comparison-link splice over any chain
  of releases, note extraction as the inverse of rendering, and a file write in which every call may fail.

Bodies of functions that a proof does not need are kept from the solver with `hide` statements; they assume nothing.

## What the proofs turned up

- The plain client calls a handler as `handler(response=response)`, the instrumented one as `handler(response)`
  (`handlers/base.py:23`, `instrumentable_client.py:274`). A handler whose parameter has another name fails without metrics
  and works with them, and one with a keyword-only parameter the other way round, though the guide asks only for an async
  callable taking the response. Instrumentation is transparent exactly when the two calls agree
  (`Instrumentation.AttemptIsTransparentIff`, `Instrumentation.InstrumentationIsTransparentIff`, an instance in
  `Instrumentation.HandlerByPositionInstance`).
- `base.py:289` returns before the forwarding middleware is installed when no proxy auth is in force, so a credential
  given only in `proxy_headers` does not reach a plain-HTTP proxy (`Headers.ProxyHeadersAloneAreNotForwarded`, an instance
  in `Headers.ProxyHeadersAloneInstance`).
- `assert_called(json=...)` does not catch the `UnicodeDecodeError` of an earlier recorded body that is not text, so
  asserting a criterion that a request did meet can raise instead of passing (`MockServer.MatchedRequestsAreAsserted`
  gives the exact condition, `MockServer.AssertionCanCrash` an instance).
- Release notes are stripped, so a section whose first line that is not blank is an indented `## [` gives notes that open a
  section (`ReleaseNotes.NotesOpenSectionIff`, `ReleaseNotes.NotesCanOpenSection`).
- Metrics switched off while a counted attempt is in flight leave the gauge above zero for good, because the lifecycle
  flag is read again in `finally` (`InterleavedMetrics.GaugeReturnsToZeroIff`, a schedule in
  `InterleavedMetrics.GaugeDriftInstance`).
- The default backoff raises `OverflowError` from attempt 1025 on (`Retry.JitterWithinCap`), and a `Retry-After` number
  too long for a float ends the run with `ValueError` instead of falling back to the backoff
  (`Retry.RetryAfterIsHonoured`, `Retry.LongNumeralIsAnError`).
- A one-shot stream in the name position of a form pair is not noticed (`Request.NamePositionIsNotChecked`,
  `Request.StreamAsName`).
- A response of status 0 without a handler is counted as a network error, and so is any unhandled response whose release
  raises an error without a status (`Instrumentation.HandlingFailureIsAResponse`, `Instrumentation.StatusZeroInstance`,
  `Instrumentation.ReleaseErrorInstance`).

## Model

| member | source | states |
|---|---|---|
| Retry.NewContext | asyncly/client/retry.py:58-65 | a context is accepted iff its attempt is within the limit and it carries no status together with an exception; it holds what was given, the method in upper case, and a refusal is a ValueError |
| Retry.NewPolicy | asyncly/client/retry.py:99-122 | a policy is accepted iff the limit is positive, statuses are HTTP statuses and no method is empty; its methods are exactly the upper-cased ones, all else is as given, and a refusal is a ValueError |
| Retry.MethodsIgnoreCase | asyncly/client/retry.py:110-121 | a request's method, in any case, is allowed iff one of the given methods is the same up to case |
| Retry.ShouldRetryIffNotSuppressed | asyncly/client/retry.py:124-176 | the public predicate holds exactly when the outcome matches and the engine finds no reason to suppress |
| Retry.NewEvent | asyncly/client/retry.py:188-190 | an event is accepted, as given, iff its delay is not negative; a refusal is a ValueError |
| Retry.GetDelay | asyncly/client/retry.py:134-156 | a delay that is returned is never negative, whatever the strategy gives |
| Retry.StrategyDecides | asyncly/client/retry.py:146-156 | without a Retry-After a strategy of the caller decides: a finite value that is not negative is the delay, any other is a ValueError, and what it raises is raised |
| Retry.OtherRetryAfterIsNone | asyncly/client/retry.py:142-156 | a Retry-After that is not respected, or is neither digits nor a date, gives the same as none |
| Retry.RetryAfterIsHonoured | asyncly/client/retry.py:193-210 | a readable Retry-After gives a delay iff it is not a number too long for a float; the delay is the number, or ends no earlier than the date |
| Retry.LongNumeralIsAnError | asyncly/client/retry.py:148-156 | every numeral too long for a float is refused with ValueError, whatever the backoff would give |
| Retry.JitterWithinCap | asyncly/client/retry.py:78-87 | the default delay lies between 0 and its cap, and exists iff the attempt is at most 1024 |
| Retry.JitterIsUniform | asyncly/client/retry.py:78-87 | every delay from 0 to the cap comes from a draw in [0, 1], a larger draw waits longer, and a draw of 1 waits for the cap |
| Retry.CapSumClosedForm | asyncly/client/retry.py:78-87 | the caps add up to 0.5(2^r - 1) for r at most 6 and 31.5 + 30(r - 6) from there on |
| Exceptions.ClassifyException | asyncly/client/metrics/taxonomy.py:59-111 | the outcome is `cancelled` iff the exception is a cancellation, and exactly then the error type is `none`; never a response |
| Exceptions.MostSpecificDiagnosis | asyncly/client/metrics/taxonomy.py:59-111 | timeouts and only they have the outcome `timeout`; any other failure gets the most specific diagnosis that is true of it |
| Exceptions.NoClassIsShadowed | asyncly/client/metrics/taxonomy.py:59-111 | every class gets the labels meant for it, whatever classes it inherits from, and any other the catch-all |
| Exceptions.ClassifyFailure | asyncly/client/metrics/instrumentable_client.py:234-252 | a failure counts as a response iff it is no cancellation and a status is known; its error type is then `invalid_response` |
| Exceptions.FailureStatus | asyncly/client/metrics/instrumentable_client.py:234-252 | a failure is reported with a status iff it is that of the handler that ran, else the `status` the exception carries unless zero, else its `status_code`; without one, with the diagnosis of the exception |
| Exceptions.UnhandledStatusIsReported | asyncly/client/handlers/base.py:15-23 | a response that has no handler, and a status other than zero, is reported with its own status |
| Request.ReplayableIff | asyncly/client/base.py:413-437 | a body is replayable iff every list in a value position is a list of pairs and no value position, at any depth, holds a one-shot object |
| Request.IsReplayableIff | asyncly/client/base.py:413-416 | a request can be repeated iff it has no body, or a form without a one-shot object in a value position |
| Request.NamePositionIsNotChecked | asyncly/client/base.py:427-434 | whatever stands in name positions, at any depth, the check gives the same answer |
| Request.StreamAsName | asyncly/client/base.py:427-434 | a body that passes with a stream for a name |
| Handlers.MostSpecificHandler | asyncly/client/handlers/base.py:26-37 | the handler found is under the most specific key that covers the status; none is found iff no key covers it |
| Handlers.WrapHandlers | asyncly/client/metrics/instrumentable_client.py:255-276 | every handler is wrapped under its own key |
| Handlers.WrappingCommutes | asyncly/client/metrics/instrumentable_client.py:255-276 | wrapping never changes which handler is found, and leaves what it does exactly when it takes the response both ways |
| Handlers.PositionOnlyInstance | asyncly/client/handlers/base.py:23 | a handler that fails when called directly and works when wrapped |
| Client.HttpClient.EnableMetrics | asyncly/client/metrics/instrumentable_client.py:70-84 | the sink is in force with its lifecycle hooks iff it defines both, and with phases iff it defines that hook; the resolver changes only if one is given |
| Client.HttpClient.DisableMetrics | asyncly/client/metrics/instrumentable_client.py:86-91 | back to the no-op sink, its flags and the default resolver |
| Client.HttpClient.EnterInstrument | asyncly/client/metrics/instrumentable_client.py:93-109 | the new sink and resolver are in force and the previous settings are remembered |
| Client.HttpClient.ExitInstrument | asyncly/client/metrics/instrumentable_client.py:111-120 | the remembered settings are restored, whatever happened in between; the flags agree with the sink iff the remembered ones did |
| Client.HttpClient.Respond | asyncly/client/base.py:232-260 | the status decision, its event and the handler call do what the specification of an answered attempt says; the contexts and events built are valid |
| Client.HttpClient.BaseRequestOnce | asyncly/client/base.py:204-260 | one physical request makes the steps, outcome and mark of the specified attempt; it leaves with the arguments it was given, with one middleware more under a policy, and changes a dict of its own, never its caller's |
| Client.HttpClient.ReportedRequest | asyncly/client/metrics/instrumentable_client.py:175-219 | the attempt lies between its hooks and is observed once, on every way out |
| Client.HttpClient.RequestOnce | asyncly/client/metrics/instrumentable_client.py:124-219 | with any sink and flags, the steps and outcome of the specified instrumented attempt |
| Client.HttpClient.RetryExceptionDelay | asyncly/client/base.py:368-410 | the exception path returns the delay, or raises, exactly as the judgement says; a retry is announced with the exception and the reason `exception` |
| Client.HttpClient.Decide | asyncly/client/base.py:174-199 | both paths out of an attempt carry out its judgement; a retried response is announced with its own context and the reason `status` |
| Client.HttpClient.Turn | asyncly/client/base.py:154-200 | one turn of the loop is one round of the specification; it goes on at the time the specification says |
| Client.HttpClient.RetryLoop | asyncly/client/base.py:153-202 | the loop refines the recursive specification of a run, leaves its keyword dict as it was, and its trailing raise is unreachable |
| Client.HttpClient.MakeReq | asyncly/client/base.py:102-202 | auth arguments that are no BasicAuth are a TypeError and send nothing; otherwise the default proxy stands in for one not given, and without a policy exactly one request leaves, with the normalised arguments, with one a whole run; the keyword dict is afterwards the normalised one |
| RunEvents.AttemptSteps | asyncly/client/base.py:219-260 | a physical request leaves once; a response is opened, announced and handled if that is called for, closed, and there is nothing else |
| RunEvents.AttemptArguments | asyncly/client/base.py:204-231 | without a policy it leaves with exactly its arguments, with one with a middleware in front and all else the same |
| RunEvents.AttemptResult | asyncly/client/handlers/base.py:12-37 | it comes out with the transport's exception, that of the release, the private response when retried, what the most specific handler does with the response given by name, or an error that carries the status |
| RunEvents.OnceIsSentOnce | asyncly/client/base.py:143-151 | a request without a policy sends once, with its own arguments and at most a trace context of the client's |
| RunProperties.AttemptIsRetriedIff | asyncly/client/base.py:153-260 | another attempt is scheduled iff the outcome is one the policy retries, verb, body and budget allow it, and a delay is known |
| RunProperties.SendsAreTheAttempts | asyncly/client/base.py:153-224 | a run sends at least once and at most as often as allowed, in order, each time at its time and with the same arguments; middlewares do not pile up |
| RunEvents.SendsCarryTheArguments | asyncly/client/base.py:162-224 | each send carries the caller's arguments, the client's middleware in front, and a trace context of the client's only for a sink with phases and if the caller gave none |
| RunEvents.SendTimes | asyncly/client/base.py:153-200 | the first send is at the start, each later one when the attempt before it has ended, its delay has passed and the sleep has overrun |
| RunProperties.EventsAndSleeps | asyncly/client/base.py:174-200 | one scheduled event and one sleep for each retry, then the terminal events |
| RunEvents.ScheduledEventsExplained | asyncly/client/base.py:187-199 | scheduled event i is about attempt i + 1: its reason is `exception`, with the exception, if that raised one, and else `status`, with the status; method, URL, limit and body are the request's, and the delay is that of the policy for this context, Retry-After and time |
| RunEvents.TerminalEventsTell | asyncly/client/base.py:244-255 | a terminal event is about the last attempt, without a delay: the first about its response if the policy lists the status, any other about the exception it raised |
| RunEvents.RunEndsWith | asyncly/client/base.py:174-202 | a run ends with its last attempt's own value or exception if that asks for no other, else with what computing the delay raised, else with what cut the sleep short |
| RunProperties.Accounting | asyncly/client/base.py:154-202 | sends exceed sleeps by one, or equal them when a sleep was cut short; slept delays are the announced ones; every event and context is valid |
| RunProperties.TwoReportsIff | asyncly/client/base.py:237-255 | the last attempt reports twice iff a retried status that may not be repeated is followed by a retried exception |
| RunProperties.EventGrammar | asyncly/client/base.py:232-404 | scheduled events 1, 2, 3, ... then at most two others, about the final attempt and of one kind and reason; two exactly in the case of TwoReportsIff |
| RunProperties.TerminalEventsExplained | asyncly/client/retry.py:167-176 | a terminal event is `exhausted` iff verb and body allow a repetition, and then the budget is used up; otherwise its reason is the verb, else the body |
| RunSafety.RunFollowsProtocol | asyncly/client/base.py:153-260 | every run obeys one step relation over sends, openings, handler calls, closings, events and sleeps |
| RunSafety.NothingAfterTerminal | asyncly/client/base.py:244-255 | after a suppressed or exhausted event nothing is sent, scheduled or slept |
| RunSafety.ResponsesAreClosed | asyncly/client/base.py:226-260 | no response is open when a run sleeps, sends again or ends |
| RunSafety.ErrorTransparency | asyncly/client/base.py:331-410 | the caller gets a user value or a genuine exception, never the private wrapper or response; a failure comes out as the original exception unless its delay could not be computed |
| RunSafety.CancellationEndsTheRun | asyncly/client/retry.py:158-165 | cancelling an attempt, or any exception that is no Exception, ends the run there with it, whatever classes the policy lists |
| RunSafety.InterruptedSleepEndsTheRun | asyncly/client/base.py:181-200 | an exception that ends a sleep ends the run, and the sleep is its last step |
| RunSafety.NotRepeatableIsSentOnce | asyncly/client/base.py:413-437 | a one-shot body, or a verb the policy does not list, is sent exactly once |
| RunSafety.TotalSleepBound | asyncly/client/retry.py:78-87 | the total sleep over r retries with the default backoff is at most the sum of its caps, in closed form |
| RunSafety.NextSendWaitsForRetryAfter | asyncly/client/base.py:187-200 | after an honoured Retry-After the next request leaves no earlier than the seconds or the date it names |
| RunSafety.TooLongRetryAfterEndsTheRun | asyncly/client/base.py:187-190 | a Retry-After numeral too long for a float, on a response that would be retried, ends the run there with ValueError |
| Headers.AssignedReads | asyncly/client/base.py:270-275 | assigning a header changes what that name reads and nothing else, and leaves one field of the name |
| Headers.FirstIs | asyncly/client/base.py:279-286 | a header reads as the first field whose name is the same up to case |
| Headers.RequestKwargs.Unpacked | asyncly/client/base.py:163-173 | a callee gets a new dict with the same values, sharing the header objects |
| Headers.RequestKwargs.PopAuth | asyncly/client/base.py:266-275 | a given auth becomes a header of a fresh copy unless one of that name is there; exactly what is no BasicAuth is a TypeError |
| Headers.RequestKwargs.PopProxyAuth | asyncly/client/base.py:277-315 | the proxy credential by precedence goes to a fresh copy of the proxy headers, and the forwarding middleware is put in front |
| Headers.RequestKwargs.NormalizeAuth | asyncly/client/base.py:263-315 | both halves in order, refusing with TypeError exactly an auth or proxy auth that is no BasicAuth; only this call's own dict changes |
| Headers.NormalizedIff | asyncly/client/base.py:266-279 | arguments are normalised iff each auth is a BasicAuth, None or not given, and else are a TypeError |
| Headers.NormalizedChanges | asyncly/client/base.py:266-315 | a given auth becomes the last header unless one is there; with a credential for the proxy the forwarding middleware comes first and the proxy headers hold it, where Authorization gives way to a credential given as a header; all else stays, in order |
| Headers.RelayHeaders | asyncly/srvmocker/proxy.py:130-138 | the dropped names are gone, and all other fields keep order and duplicates |
| Headers.MockProxyService.Handle | asyncly/srvmocker/proxy.py:168-206 | every request is recorded whole, also a refused one; it is forwarded iff its credential is the required one, and the answer relayed |
| Headers.ResponseIsRelayed | asyncly/srvmocker/proxy.py:192-206 | what comes back has the target's status, reason, body and fields, in order, without the names of the response list |
| Headers.ProxySees | asyncly/client/base.py:263-328 | the proxy sees the caller's headers, the encoded auth, and one credential by precedence |
| Headers.TargetSees | asyncly/srvmocker/proxy.py:35-138 | the target sees no hop-by-hop name of the list; its Authorization is the explicit one, else the encoded auth, else absent; all else is in order with duplicates |
| Headers.ProxyForwardsIff | asyncly/srvmocker/proxy.py:183-195 | a proxy that requires a credential forwards exactly the requests whose credential by precedence is that one, and one that requires none forwards them all |
| Headers.ProxyHeadersAloneAreNotForwarded | asyncly/client/base.py:277-310 | a credential in proxy_headers reaches a plain-HTTP proxy iff some proxy auth is in force |
| Headers.ProxyHeadersAloneInstance | asyncly/client/base.py:289-290 | such a request, whose credential is not on what reaches the proxy |
| Metrics.PrometheusSink.OnRequestStart | asyncly/client/metrics/sinks/prometheus.py:118-121 | the gauge of the label tuple goes up by one |
| Metrics.PrometheusSink.OnRequestEnd | asyncly/client/metrics/sinks/prometheus.py:123-126 | the gauge of the label tuple goes down by one |
| Metrics.PrometheusSink.ObserveRequest | asyncly/client/metrics/sinks/prometheus.py:128-149 | one count, one histogram observation, and one error iff the error type is given and not `none` |
| Metrics.TraceCounts | asyncly/client/metrics/sinks/prometheus.py:128-149 | what a trace adds to each counter, by the fates of its observations |
| Metrics.CountsByLabels | asyncly/client/metrics/sinks/prometheus.py:118-149 | every counter grows, tuple by tuple of labels, by the observations with these labels, errors_total by those with the error type, and the gauge by the starts less the ends |
| Instrumentation.AttemptIsTransparentIff | asyncly/client/metrics/instrumentable_client.py:139-219 | an attempt under any sink has the steps of the plain one, metrics apart, and its outcome iff no handler is called, an error on release overrides it, or it takes the response both ways |
| Instrumentation.InstrumentationIsTransparent | asyncly/client/metrics/instrumentable_client.py:124-219 | so has a whole run, if that holds of every attempt of the plain client: same result, sends, events, sleeps and times |
| Instrumentation.InstrumentationIsTransparentIff | asyncly/client/metrics/instrumentable_client.py:124-219 | and only if, with a strategy that always gives a delay: the first attempt handled otherwise shows in the events or the result |
| Instrumentation.HandlerByPositionInstance | asyncly/client/metrics/instrumentable_client.py:268-276 | a client whose requests fail without metrics and succeed with any sink |
| Instrumentation.ObservedFairly | asyncly/client/metrics/instrumentable_client.py:189-252 | what an attempt reports is what the script alone says of it |
| Instrumentation.ObservationsAreTheAttempts | asyncly/client/metrics/instrumentable_client.py:189-219 | a run reports one observation for each physical attempt, in order |
| Instrumentation.ReportedLabels | asyncly/client/metrics/instrumentable_client.py:151-219 | an attempt is reported with the client, method, resolved route, and the operation given or else the route, and with its fair count |
| Instrumentation.HooksSurround | asyncly/client/metrics/instrumentable_client.py:175-219 | a sink with both hooks is called before everything and after it, and any sink then once with the observation, with the same labels; and not otherwise |
| Instrumentation.CountersAreTheAttempts | asyncly/client/metrics/sinks/prometheus.py:128-149 | after a run each counter holds, tuple by tuple of labels, the number of attempts reported with them |
| Instrumentation.MetricsConservation | asyncly/client/metrics/sinks/prometheus.py:128-149 | requests_total is the number of physical attempts, equals the histogram's count and the successes plus cancellations plus errors_total; histogram responses equal the counter's, tuple by tuple |
| Instrumentation.HandlingFailureIsAResponse | asyncly/client/metrics/instrumentable_client.py:234-252 | an attempt that got a response and failed counts as a response iff a handler was called, or there was none and the status is not zero, or releasing it raised an error that carries a status |
| Instrumentation.StatusZeroInstance | asyncly/client/metrics/instrumentable_client.py:242-252 | such a response, counted as a network error |
| Instrumentation.ReleaseErrorInstance | asyncly/client/metrics/instrumentable_client.py:242-252 | an unhandled 404 whose release raises, counted as a network error |
| Interleaving.EnabledSinksQualify | asyncly/client/metrics/instrumentable_client.py:80-82 | the theorems on schedules apply to any sink switched on with enable_metrics, with or without the two hooks |
| Interleaving.AdvanceFollowsRun | asyncly/client/metrics/instrumentable_client.py:139-219 | a task whose handlers take the response both ways, resumed at any await, with metrics on or off, does the next stretch of its sequential run |
| Interleaving.AdvanceSends | asyncly/client/metrics/instrumentable_client.py:151-163 | a task sends its own arguments, with a trace context of the client's only if metrics are on as the request leaves |
| Interleaving.TasksAreIndependent | asyncly/client/base.py:143-202 | under every schedule the trace of such a task, with or without a policy, is a prefix of its sequential run, and the whole of it with the same result when it has finished, whatever the other tasks |
| Interleaving.AdvanceMakesProgress | asyncly/client/base.py:154-202 | one advance leads to a place a task can be in, closer to its end by a rank of at most five for each allowed attempt |
| Interleaving.TasksFinish | asyncly/client/base.py:154-202 | under every schedule a task resumed five times for each allowed attempt has finished |
| InterleavedMetrics.GaugeCountsRunningAttempts | asyncly/client/metrics/instrumentable_client.py:175-209 | at every step the gauge of a tuple is the number of counted attempts in flight with it, plus those that ended with metrics off, or zero for a sink without the hooks; it is never negative |
| InterleavedMetrics.GaugeReturnsToZeroIff | asyncly/client/metrics/instrumentable_client.py:203-209 | when all have finished the gauge is zero iff no attempt with its labels ended while metrics were off |
| InterleavedMetrics.QuietSwitchesLeaveNoOrphans | asyncly/client/metrics/instrumentable_client.py:86-91 | if metrics are switched off only while no counted attempt is in flight, none ever ends that way |
| InterleavedMetrics.QuietSwitchesReturnToZero | asyncly/client/metrics/instrumentable_client.py:175-209 | and then every gauge is back at zero when all have finished |
| InterleavedMetrics.GaugeDriftInstance | asyncly/client/metrics/instrumentable_client.py:203-209 | a schedule that leaves the gauge at one |
| InterleavedMetrics.NoOrphansWithoutSwitches | asyncly/client/metrics/instrumentable_client.py:175-209 | in particular none does without switches |
| InterleavedMetrics.CountersAreConserved | asyncly/client/metrics/sinks/prometheus.py:128-149 | at every step of every schedule requests_total is the successes, cancellations and failures in the traces, errors_total the failures, the histogram's count equals the counter's, and its responses too, tuple by tuple |
| InterleavedMetrics.ReportsAreFair | asyncly/client/metrics/instrumentable_client.py:175-219 | at every step of every schedule what a task has reported are fair counts of attempts that have ended, each at most once and in order, whatever its handlers and however metrics are switched |
| InterleavedMetrics.RequestsCountSendsWhileOn | asyncly/client/metrics/sinks/prometheus.py:128-144 | however metrics are switched, at every step requests_total plus the counted attempts in flight is the number of requests that all tasks sent while metrics were on |
| InterleavedMetrics.RequestsCountAllAttempts | asyncly/client/metrics/sinks/prometheus.py:128-144 | with metrics on throughout it is the number of all requests sent |
| Routes.ResolveRoute | asyncly/client/metrics/route_resolver.py:4-19 | the loop over the segments computes the specified label |
| Routes.RouteShape | asyncly/client/metrics/route_resolver.py:11-19 | a label is `/` or one segment for each non-empty piece, in order: the piece, or `:id` if it looks like an identifier |
| Routes.IdentifiersAreReplaced | asyncly/client/metrics/route_resolver.py:11-19 | exactly the pieces of digits alone, and those of 8, 16, 32 or 36 characters with a letter, are replaced, and none of either kind is left |
| Routes.RouteIsIdempotent | asyncly/client/metrics/route_resolver.py:11-19 | normalising a label changes nothing |
| Matching.MeetsIff | asyncly/srvmocker/matching.py:34-71 | criteria are met iff body and JSON are equal and headers and query are subsets |
| Matching.FirstExactIs | asyncly/srvmocker/matching.py:65-71 | a query parameter reads as the first one of exactly that name |
| Matching.CrashIff | asyncly/srvmocker/assertions.py:7-37 | the decoding error escapes iff there is a JSON criterion, the body criterion passes and the body is not text |
| MockServer.PickingIsNth | asyncly/srvmocker/responses/sequence.py:41-54 | picking call by call gives the n-th reply stated outright, in all three modes |
| MockServer.SequenceResponse.Make | asyncly/srvmocker/responses/sequence.py:26-35 | an empty sequence is refused, and only that |
| MockServer.SequenceResponse.Pick | asyncly/srvmocker/responses/sequence.py:41-54 | the reply and the new index are those of the specification |
| MockServer.GroupRoutes | asyncly/srvmocker/service.py:55-57 | the groups are, for each method and path that occurs, its routes in declaration order |
| MockServer.GroupedIsFlat | asyncly/srvmocker/handlers.py:21-25 | the choice within a group is that of a first-match scan of all routes |
| MockServer.FirstMatchIs | asyncly/srvmocker/handlers.py:21-25 | the choice is a route that matches with none before it, for the method and path, that matches or crashes; a crash with none such before it; or nothing iff there is neither |
| MockServer.ChooseRoute | asyncly/srvmocker/handlers.py:21-25 | the search loop finds the first route that matches |
| MockServer.MockService.Register | asyncly/srvmocker/models.py:95-108 | only declared names are accepted, and nothing else changes |
| MockServer.LastRegistrationCounts | asyncly/srvmocker/models.py:95-108 | in every reachable state a declared name has the response registered last for it, and no other name has one |
| MockServer.MockService.Dispatch | asyncly/srvmocker/handlers.py:17-48 | a request is matched, recorded twice and answered as the specification of the server says |
| MockServer.RequestIsRecorded | asyncly/srvmocker/handlers.py:27-48 | an unmatched request changes nothing; a matched one adds one record to its handler and to no other, also when no response is registered |
| MockServer.IndexAgreement | asyncly/srvmocker/models.py:89-126 | in every reachable state the history of a name is the order-preserving filter of the whole, and all names are declared |
| MockServer.HistoriesAddUp | asyncly/srvmocker/models.py:89-115 | the lengths of the histories by name add up to the whole |
| MockServer.CallsAreDispatches | asyncly/srvmocker/handlers.py:21-41 | the calls of a handler are as many as the received requests whose first matching route is one of its routes |
| MockServer.TimesCountsDispatches | asyncly/srvmocker/models.py:158-165 | assert_called with only `times` passes iff that many of the requests received were dispatched to the handler |
| MockServer.MockService.AssertWasCalled | asyncly/srvmocker/models.py:128-173 | with the right count, or none asked for, and something to check, it fails iff no recorded call meets the criteria, passes iff some call does and none before it does or crashes, and crashes iff some call crashes and none before it does or meets them |
| MockServer.VerdictIff | asyncly/srvmocker/models.py:158-173 | so for every state, with a wrong count a failure, and with the right one and no criteria a success |
| MockServer.MatchedRequestsAreAsserted | asyncly/srvmocker/models.py:128-173 | asserting the match of a dispatched request never fails in any later state; it passes iff no call before the first that meets it crashes |
| MockServer.AssertionCanCrash | asyncly/srvmocker/assertions.py:30-37 | two routes of one handler and two requests, with the bodies 0xff and `1`, for which it crashes |
| ClosedLoop.ServerSide | asyncly/srvmocker/handlers.py:17-48 | n sendings of one request are recorded n times and answered as the sequence's mode says, for every n: cycling, repeating, or the error of an exhausted one |
| ClosedLoop.UnservedRequests | asyncly/srvmocker/handlers.py:17-48 | however often it is sent, a request without a route gets 404 and no record, and one whose handler has no response gets 500 and a record each time |
| RunProperties.DelayIsKnownIff | asyncly/client/retry.py:134-156 | with a strategy that always gives a delay, a delay is known iff a respected Retry-After is not too long a number |
| ClosedLoop.ServerFollowsTrace | asyncly/srvmocker/handlers.py:17-48 | at every point of the run the server is in the state that the requests sent so far led to, and the next attempt meets its reply in that state |
| ClosedLoop.ClientServer | asyncly/client/base.py:153-260 | with k retryable replies and a budget of m: min(k+1, m) recorded calls, min(k, m-1) sleeps and scheduled events, `exhausted` iff k >= m, and only the last reply is handled, with whose outcome the run ends; the server receives what the run sends |
| ClosedLoop.DefaultPolicyWaitsAndSucceeds | asyncly/client/retry.py:90-99 | the default policy and a reply 503 with a Retry-After of 2, then 200: two calls, one sleep of 2 seconds, the handler's value |
| Release.VersionsRoundTrip | tools/release.py:19-32 | parsing and rendering a version are inverse both ways |
| Release.StepsAreStrictOrder | tools/release.py:35-37 | accepted steps are irreflexive, asymmetric and transitive |
| Release.EarlierPartsOutweigh | tools/release.py:35-37 | versions are ordered by their first part that differs |
| Release.UpdateSucceedsIff | tools/release.py:109-119 | an update is accepted iff the version is greater, the one definition of Unreleased is the link from the previous version, and no line defines the new one; and each error is the first of these that fails |
| Release.UpdateIsSplice | tools/release.py:109-123 | an update replaces the characters of the one Unreleased definition and no others |
| Release.UpdateWrites | tools/release.py:118-123 | what is replaced and what is written, spelled out |
| Release.LinksTelescope | tools/release.py:118-122 | link k of a chain joins two neighbouring versions, newest first |
| Release.ReleaseChain | tools/release.py:109-123 | n updates over increasing fresh versions all succeed and leave Unreleased at the newest, the telescoping links, and every other character as it was |
| Release.StepsDoNotRepeat | tools/release.py:112-117 | after an update no update from the same previous version succeeds |
| ReleaseNotes.ExtractionInvertsRendering | tools/release.py:126-142 | from any rendered changelog with distinct versions each version gets its own body, stripped, or the error of an empty section |
| ReleaseNotes.ExtractionIff | tools/release.py:126-142 | of any text: which error it is, exactly, and otherwise the lines from the one heading to the next section, stripped |
| ReleaseNotes.NotesOpenSectionIff | tools/release.py:137-142 | no line of the notes after the first opens a section; the first does iff the section, stripped on the left, starts with an opening |
| ReleaseNotes.NotesCanOpenSection | tools/release.py:137-142 | a changelog whose notes open a section |
| ReleaseNotes.LinkUpdateKeepsNotesIff | tools/release.py:109-142 | a link update leaves the result of extraction for a version, notes or error, as it was iff its section does not hold the Unreleased definition |
| AtomicWrite.FileSystem.Fill | tools/release.py:56-67 | only the temporary file changes, and without a fault it holds the text with the destination's mode |
| AtomicWrite.FileSystem.TryWrite | tools/release.py:49-69 | which fault stops the write, and whether a temporary file is left for the cleanup |
| AtomicWrite.StopsIsFirst | tools/release.py:49-69 | a write is stopped by the first call that fails, in the order in which their faults surface |
| AtomicWrite.FileSystem.WriteTextAtomic | tools/release.py:47-77 | at every moment, under any combination of faults, the destination holds its old entry or the whole text with its mode kept; success iff nothing fails; a temporary file stays only if its removal fails; a symlink is never touched |

## Left out

Assumptions of the model:

- Observers, sinks, metric hooks and route resolvers do not raise.
- Handlers are kept in a dictionary that does not change during a call; they are not null, and return user values, never the
  private response.
- Events are logged as they are built, whether or not an observer is given.
- Exceptions carry the set of classes they belong to; no class hierarchy is assumed.
- Delays and times are reals: rounding is not modelled, except that a number beyond the largest float is infinite.
- Character classes are ASCII: Unicode digits in Retry-After, in paths and in the dates of headings, Unicode white space in
  `strip`, and case mapping outside ASCII are not modelled.
- The random draw of the backoff is any value between 0 and 1; the date parser, `BasicAuth.encode` and `json.loads` are
  arbitrary functions.

Weaker than the code:

- Headers.ProxySees: user middlewares leave the headers alone, and the headers a session adds by itself are not modelled.
- Headers.TargetSees: claims the relay's own list of names only; fields nominated by Connection (section 7.6.1 of RFC 9110) are relayed, as in the code.
- Interleaving.TasksAreIndependent: metrics are switched between off and one sink with one route resolver; a change to another sink while an attempt is in flight is not modelled.
- Release.VersionsRoundTrip: numerals have any length; Python refuses to convert very long ones, with a plain ValueError.
- ClosedLoop.ClientServer: handling the last reply does not raise an exception that the policy retries, every Retry-After waited for fits a float, and no sleep is interrupted; without these the run goes on or ends as AttemptIsRetriedIff, TooLongRetryAfterEndsTheRun and InterruptedSleepEndsTheRun say.
- Metrics.PrometheusSink.ObserveRequest: counts observations; their durations and the buckets they fall in are not modelled.
- Retry.NewPolicy: the check that the listed exceptions are exception classes is a matter of types here.
- AtomicWrite.FileSystem.WriteTextAtomic: an exception comes from a call that fails; one that arrives between two calls, as an interrupt may, is not modelled, nor are other processes that change the directory.

Not modelled:

- aiohttp itself: sockets, the connector, TLS, redirects, its own handling of headers, and its router: path templates, and
  the 405 it answers when a path is known only under other methods, where the model says 404.
- Parsing HTTP dates, the bytes of basic auth, and the encodings of bodies.
- Body parsers, serializers and the other canned responses, which only wrap foreign calls; sequences nested in sequences.
- `last_call`, `assert_not_called` and the proxy's own assertions, which read one list.
- Phase timings, the pool collector and the OpenTelemetry sink, which repeat the Prometheus counting or read private state.
- Reading archives, hashes, metadata and the command line of the release tool: flat checks over input and output.
- The pytest plugin, timeout conversion and lazy exports.
