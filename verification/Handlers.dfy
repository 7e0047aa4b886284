/** Status handlers: which one a response is given to, and the wrappers that note that one ran. */
module Handlers {
  import opened Wrappers
  import opened Exceptions

  /** A key of the handler mapping: 404, "4xx", "*" or any other string. */
  datatype Key = Status(code: int) | Range(hundreds: int) | Wildcard | OtherKey(name: string)

  /** A received response; the serial tells two responses apart. */
  datatype HttpResponse = HttpResponse(status: int, retryAfter: Option<string>, serial: nat)

  datatype HandlerResult = Return(value: int) | Raise(exn: Exn)

  /** A user handler, or one wrapped to record the status of the response it is called with. What a user handler does may
      depend on whether it is given the response by name, as `response=`, or by position: it can refuse either. */
  datatype Handler =
    | UserHandler(byName: HttpResponse -> HandlerResult, byPosition: HttpResponse -> HandlerResult)
    | Marking(inner: Handler)

  type HandlerMap = map<Key, Handler>

  /** _find_handler: exact status, then range, then wildcard. */
  function FindHandler(handlers: HandlerMap, status: int): Option<Handler> {
    if Status(status) in handlers then Some(handlers[Status(status)])
    else if Range(status / 100) in handlers then Some(handlers[Range(status / 100)])
    else if Wildcard in handlers then Some(handlers[Wildcard])
    else None
  }

  predicate Covers(key: Key, status: int) {
    key == Status(status) || key == Range(status / 100) || key == Wildcard
  }

  function Specificity(key: Key): nat {
    match key
    case Status(_) => 2
    case Range(_) => 1
    case _ => 0
  }

  /** The handler found is the one under the most specific key that covers the status; none is found iff no key does. */
  lemma MostSpecificHandler(handlers: HandlerMap, status: int) returns (key: Key)
    ensures FindHandler(handlers, status).None? <==> forall k :: k in handlers ==> !Covers(k, status)
    ensures FindHandler(handlers, status).Some? ==>
              && key in handlers && Covers(key, status) && FindHandler(handlers, status).value == handlers[key]
              && forall k :: k in handlers && Covers(k, status) ==> Specificity(k) <= Specificity(key)
  {
    key := if Status(status) in handlers then Status(status)
           else if Range(status / 100) in handlers then Range(status / 100) else Wildcard;
  }

  /** handler(response): what a wrapper does with the handler inside it. */
  function CallByPosition(h: Handler, response: HttpResponse, mark: Option<int>): (HandlerResult, Option<int>) {
    match h
    case UserHandler(_, byPosition) => (byPosition(response), mark)
    case Marking(inner) => CallByPosition(inner, response, Some(response.status))
  }

  /** handler(response=response), as apply_handler calls it: its result, and the recorded status. */
  function RunHandler(h: Handler, response: HttpResponse, mark: Option<int>): (HandlerResult, Option<int>) {
    match h
    case UserHandler(byName, _) => (byName(response), mark)
    case Marking(inner) => CallByPosition(inner, response, Some(response.status))
  }

  /** A handler that does the same with the response however it is given. Wrappers always do. */
  predicate TakesBothWays(h: Handler, response: HttpResponse) {
    h.UserHandler? ==> h.byName(response) == h.byPosition(response)
  }

  /** Every handler wrapped, under the same keys. */
  function AllMarking(handlers: HandlerMap): HandlerMap {
    map key | key in handlers :: Marking(handlers[key])
  }

  /** _wrap_handlers_with_status_mark */
  method WrapHandlers(handlers: HandlerMap) returns (wrapped: HandlerMap)
    ensures wrapped == AllMarking(handlers)
  {
    wrapped := map[];
    var left := handlers.Keys;
    while left != {}
      invariant left <= handlers.Keys
      invariant wrapped.Keys == handlers.Keys - left
      invariant forall key :: key in wrapped ==> wrapped[key] == Marking(handlers[key])
      decreases left
    {
      var key :| key in left;
      wrapped := wrapped[key := Marking(handlers[key])];
      left := left - {key};
    }
  }

  /** Wrapping does not change which handler is found, and it changes nothing of what that handler does exactly when the
      handler takes the response both ways. */
  lemma WrappingCommutes(handlers: HandlerMap, response: HttpResponse, mark: Option<int>)
    ensures var plain, wrapped := FindHandler(handlers, response.status), FindHandler(AllMarking(handlers), response.status);
            && wrapped == (if plain.Some? then Some(Marking(plain.value)) else None)
            && (plain.Some? ==>
                  (RunHandler(wrapped.value, response, mark).0 == RunHandler(plain.value, response, mark).0
                   <==> TakesBothWays(plain.value, response)))
  {
    var plain := FindHandler(handlers, response.status);
    if plain.Some? {
      MarkDoesNotMatter(plain.value, response, mark, Some(response.status));
      if plain.value.Marking? {
        MarkDoesNotMatter(plain.value.inner, response, Some(response.status), mark);
      }
    }
  }

  lemma {:induction false} MarkDoesNotMatter(h: Handler, response: HttpResponse, a: Option<int>, b: Option<int>)
    ensures CallByPosition(h, response, a).0 == CallByPosition(h, response, b).0
  {
    match h
    case UserHandler(_, _) =>
    case Marking(inner) =>
  }

  /** A handler that accepts the response only by position fails when called directly, and works when wrapped. */
  lemma PositionOnlyInstance(response: HttpResponse, value: int)
    ensures var h := UserHandler(_ => Raise(Own(TypeError)), _ => Return(value));
            && RunHandler(h, response, None).0 == Raise(Own(TypeError))
            && RunHandler(Marking(h), response, None).0 == Return(value)
  {
  }
}
