/** The mock server: routes grouped by method and path, the dispatcher, the doubly indexed history, response
    sequences, and the assertions over history. */
module MockServer {
  import opened Wrappers
  import opened Exceptions
  import opened Matching
  import opened Request

  // ---- responses -------------------------------------------------------------------------------------------

  datatype Reply = Answered(status: int, retryAfter: Option<string>) | Disconnects

  datatype OnExhausted = RaiseError | Cycle | RepeatLast

  /** The reply of a sequence at an index, if any, and its next index. */
  function Picked(responses: seq<Reply>, mode: OnExhausted, index: nat): (Option<Reply>, nat)
    requires responses != []
  {
    if index < |responses| then (Some(responses[index]), index + 1)
    else
      match mode
      case RaiseError => (None, index)
      case Cycle => (Some(responses[index % |responses|]), index + 1)
      case RepeatLast => (Some(responses[|responses| - 1]), index)
  }

  /** The reply to call number n of a fresh sequence, counting from 0, stated outright. */
  function NthReply(responses: seq<Reply>, mode: OnExhausted, n: nat): Option<Reply>
    requires responses != []
  {
    if n < |responses| then Some(responses[n])
    else
      match mode
      case RaiseError => None
      case Cycle => Some(responses[n % |responses|])
      case RepeatLast => Some(responses[|responses| - 1])
  }

  /** The index after n calls of a fresh sequence. */
  function IndexAfter(responses: seq<Reply>, mode: OnExhausted, n: nat): nat
    requires responses != []
  {
    if n == 0 then 0 else Picked(responses, mode, IndexAfter(responses, mode, n - 1)).1
  }

  /** Picking call by call gives the replies of NthReply, in every mode. */
  lemma {:induction false} PickingIsNth(responses: seq<Reply>, mode: OnExhausted, n: nat)
    requires responses != []
    ensures Picked(responses, mode, IndexAfter(responses, mode, n)).0 == NthReply(responses, mode, n)
    ensures IndexAfter(responses, mode, n) == if mode == Cycle || n <= |responses| then n else |responses|
  {
    if n > 0 { PickingIsNth(responses, mode, n - 1); }
  }

  class SequenceResponse {
    const responses: seq<Reply>
    const mode: OnExhausted
    var index: nat

    constructor (responses: seq<Reply>, mode: OnExhausted)
      ensures this.responses == responses && this.mode == mode && index == 0
    {
      this.responses, this.mode, index := responses, mode, 0;
    }

    /** SequenceResponse(...): an empty sequence is refused. */
    static method Make(responses: seq<Reply>, mode: OnExhausted) returns (r: Result<SequenceResponse, Exn>)
      ensures r.Err? <==> responses == []
      ensures r.Ok? ==> fresh(r.value) && r.value.responses == responses && r.value.mode == mode && r.value.index == 0
    {
      if responses == [] {
        return Err(Own(ValueError));
      }
      var sequence := new SequenceResponse(responses, mode);
      return Ok(sequence);
    }

    /** _pick: None is SequenceExhausted. */
    method Pick() returns (reply: Option<Reply>)
      requires responses != []
      modifies this
      ensures (reply, index) == Picked(responses, mode, old(index))
    {
      if index < |responses| {
        reply := Some(responses[index]);
        index := index + 1;
      } else if mode == RaiseError {
        reply := None;
      } else if mode == Cycle {
        reply := Some(responses[index % |responses|]);
        index := index + 1;
      } else {
        reply := Some(responses[|responses| - 1]);
      }
    }
  }

  datatype Responder = Fixed(reply: Reply) | Sequenced(sequence: SequenceResponse)

  // ---- routes ------------------------------------------------------------------------------------------------

  datatype Route<J> = Route(verb: string, path: string, handlerName: string, criteria: Option<Criteria<J>>)

  datatype Choice<J> = Chosen(route: Route<J>) | NoMatch | MatchCrashed

  function RouteMeets<J(==)>(route: Route<J>, parse: Body -> Parse<J>, r: Incoming): Answer {
    if route.criteria.None? then Yes else Meets(route.criteria.value, parse, r)
  }

  /** The first route of a group that matches. */
  function FirstMatch<J(==)>(group: seq<Route<J>>, parse: Body -> Parse<J>, r: Incoming): Choice<J> {
    if group == [] then NoMatch
    else
      match RouteMeets(group[0], parse, r)
      case Yes => Chosen(group[0])
      case Crash => MatchCrashed
      case No => FirstMatch(group[1..], parse, r)
  }

  /** The routes for a method and path, in declaration order. */
  function GroupOf<J>(routes: seq<Route<J>>, verb: string, path: string): seq<Route<J>> {
    if routes == [] then []
    else (if routes[0].verb == verb && routes[0].path == path then [routes[0]] else []) + GroupOf(routes[1..], verb, path)
  }

  lemma {:induction false} GroupOfConcat<J>(a: seq<Route<J>>, b: seq<Route<J>>, verb: string, path: string)
    ensures GroupOf(a + b, verb, path) == GroupOf(a, verb, path) + GroupOf(b, verb, path)
  {
    if a == [] {
      assert a + b == b;
    } else {
      assert (a + b)[1..] == a[1..] + b;
      GroupOfConcat(a[1..], b, verb, path);
    }
  }

  lemma GroupOfNext<J>(routes: seq<Route<J>>, i: nat, verb: string, path: string)
    requires i < |routes|
    ensures GroupOf(routes[..i + 1], verb, path)
         == GroupOf(routes[..i], verb, path) + (if routes[i].verb == verb && routes[i].path == path then [routes[i]] else [])
  {
    assert routes[..i + 1] == routes[..i] + [routes[i]];
    GroupOfConcat(routes[..i], [routes[i]], verb, path);
    assert [routes[i]][1..] == [];
  }

  /** The grouping loop of start_service. */
  method GroupRoutes<J>(routes: seq<Route<J>>) returns (groups: map<(string, string), seq<Route<J>>>)
    ensures forall verb, path :: (verb, path) in groups <==> GroupOf(routes, verb, path) != []
    ensures forall verb, path :: (verb, path) in groups ==> groups[(verb, path)] == GroupOf(routes, verb, path)
  {
    groups := map[];
    for i := 0 to |routes|
      invariant forall verb, path :: (verb, path) in groups <==> GroupOf(routes[..i], verb, path) != []
      invariant forall verb, path :: (verb, path) in groups ==> groups[(verb, path)] == GroupOf(routes[..i], verb, path)
    {
      hide GroupOf;
      var route := routes[i];
      var key := (route.verb, route.path);
      forall verb, path
        ensures GroupOf(routes[..i + 1], verb, path)
             == GroupOf(routes[..i], verb, path) + (if route.verb == verb && route.path == path then [route] else [])
      {
        GroupOfNext(routes, i, verb, path);
      }
      groups := groups[key := (if key in groups then groups[key] else []) + [route]];
    }
    assert routes[..|routes|] == routes;
  }

  /** A scan of the flat route list, skipping routes of other methods and paths. */
  function FlatMatch<J(==)>(routes: seq<Route<J>>, parse: Body -> Parse<J>, r: Incoming): Choice<J> {
    if routes == [] then NoMatch
    else if routes[0].verb != r.verb || routes[0].path != r.path then FlatMatch(routes[1..], parse, r)
    else
      match RouteMeets(routes[0], parse, r)
      case Yes => Chosen(routes[0])
      case Crash => MatchCrashed
      case No => FlatMatch(routes[1..], parse, r)
  }

  /** Dispatching within the group chooses what a first-match scan of all routes would. */
  lemma {:induction false} GroupedIsFlat<J>(routes: seq<Route<J>>, parse: Body -> Parse<J>, r: Incoming)
    ensures FirstMatch(GroupOf(routes, r.verb, r.path), parse, r) == FlatMatch(routes, parse, r)
  {
    if routes != [] {
      GroupedIsFlat(routes[1..], parse, r);
      var rest := GroupOf(routes[1..], r.verb, r.path);
      assert ([routes[0]] + rest)[1..] == rest;
      assert [] + rest == rest;
    }
  }

  /** The route is for this method and path. */
  predicate IsFor<J>(route: Route<J>, r: Incoming) {
    route.verb == r.verb && route.path == r.path
  }

  /** The choice: a route whose match is met, with none before it for this method and path that is met or crashes; the
      crash of one with none such before it; or nothing, when no route for them is met or crashes. */
  lemma {:induction false} FirstMatchIs<J>(routes: seq<Route<J>>, parse: Body -> Parse<J>, r: Incoming) returns (i: nat)
    ensures i <= |routes|
    ensures forall j :: 0 <= j < i && IsFor(routes[j], r) ==> RouteMeets(routes[j], parse, r) == No
    ensures i < |routes| ==> IsFor(routes[i], r) && RouteMeets(routes[i], parse, r) != No
    ensures FirstMatch(GroupOf(routes, r.verb, r.path), parse, r)
         == if i == |routes| then NoMatch
            else if RouteMeets(routes[i], parse, r) == Yes then Chosen(routes[i]) else MatchCrashed
  {
    hide RouteMeets;
    GroupedIsFlat(routes, parse, r);
    if routes == [] {
      i := 0;
    } else if IsFor(routes[0], r) && RouteMeets(routes[0], parse, r) != No {
      i := 0;
    } else {
      var later := FirstMatchIs(routes[1..], parse, r);
      GroupedIsFlat(routes[1..], parse, r);
      i := later + 1;
    }
  }

  /** The search loop of the dispatcher. */
  method ChooseRoute<J(==)>(group: seq<Route<J>>, parse: Body -> Parse<J>, r: Incoming) returns (choice: Choice<J>)
    ensures choice == FirstMatch(group, parse, r)
  {
    for i := 0 to |group|
      invariant FirstMatch(group, parse, r) == FirstMatch(group[i..], parse, r)
    {
      assert group[i..][1..] == group[i + 1..];
      match RouteMeets(group[i], parse, r)
      case Yes => return Chosen(group[i]);
      case Crash => return MatchCrashed;
      case No =>
    }
    return NoMatch;
  }

  // ---- server state ----------------------------------------------------------------------------------------------

  datatype Recorded = Recorded(request: Incoming, handlerName: string)

  /** The state of a service; `positions` holds the index of every response sequence. */
  datatype ServerState = ServerState(
    history: seq<Recorded>, historyMap: map<string, seq<Recorded>>,
    handlers: map<string, Responder>, positions: map<SequenceResponse, nat>)

  /** What the client is sent: a reply, or the server's own 404 and 500. */
  datatype Served = Sent(reply: Reply) | NotFound | ServerError

  function Calls(s: ServerState, name: string): seq<Recorded> {
    if name in s.historyMap then s.historyMap[name] else []
  }

  function Position(s: ServerState, o: SequenceResponse): nat {
    if o in s.positions then s.positions[o] else 0
  }

  function Record(s: ServerState, r: Recorded): ServerState {
    s.(history := s.history + [r], historyMap := s.historyMap[r.handlerName := Calls(s, r.handlerName) + [r]])
  }

  /** The response step: a missing or exhausted response is a server error. */
  function Respond(s: ServerState, name: string): (ServerState, Served)
    requires name in s.handlers && s.handlers[name].Sequenced? ==> s.handlers[name].sequence.responses != []
  {
    if name !in s.handlers then (s, ServerError)
    else
      match s.handlers[name]
      case Fixed(reply) => (s, Sent(reply))
      case Sequenced(o) =>
        var (reply, index) := Picked(o.responses, o.mode, Position(s, o));
        (s.(positions := s.positions[o := index]), if reply.Some? then Sent(reply.value) else ServerError)
  }

  /** Sequences are never empty: SequenceResponse refuses to be. */
  predicate SequencesFilled(s: ServerState) {
    forall name :: name in s.handlers && s.handlers[name].Sequenced? ==> s.handlers[name].sequence.responses != []
  }

  /** The dispatcher of one request. */
  function Serve<J(==)>(s: ServerState, routes: seq<Route<J>>, parse: Body -> Parse<J>, r: Incoming): (ServerState, Served)
    requires SequencesFilled(s)
  {
    match FirstMatch(GroupOf(routes, r.verb, r.path), parse, r)
    case NoMatch => (s, NotFound)
    case MatchCrashed => (s, ServerError)
    case Chosen(route) => Respond(Record(s, Recorded(r, route.handlerName)), route.handlerName)
  }

  /** A running service object. */
  class MockService<J(==)> {
    var history: seq<Recorded>
    var historyMap: map<string, seq<Recorded>>
    var handlers: map<string, Responder>
    const handlerNames: set<string>

    constructor (routes: seq<Route<J>>)
      ensures history == [] && historyMap == map[] && handlers == map[]
      ensures handlerNames == DeclaredNames(routes)
    {
      history, historyMap, handlers := [], map[], map[];
      handlerNames := DeclaredNames(routes);
    }

    /** The state, with the indices of the given response sequences. */
    ghost function View(sequences: set<SequenceResponse>): ServerState
      reads this, sequences
    {
      ServerState(history, historyMap, handlers, map o | o in sequences :: o.index)
    }

    /** Every registered sequence is among the given ones and is not empty. */
    ghost predicate Registered(sequences: set<SequenceResponse>)
      reads this
    {
      forall name :: name in handlers && handlers[name].Sequenced? ==>
        handlers[name].sequence in sequences && handlers[name].sequence.responses != []
    }

    /** MockService.register: an unknown name is refused. */
    method Register(name: string, responder: Responder) returns (known: bool)
      modifies this
      ensures known <==> name in handlerNames
      ensures handlers == (if known then old(handlers)[name := responder] else old(handlers))
      ensures history == old(history) && historyMap == old(historyMap)
    {
      if name !in handlerNames {
        return false;
      }
      handlers := handlers[name := responder];
      return true;
    }

    /** The dispatcher built for a group, on one request: record twice, then respond. */
    method Dispatch(group: seq<Route<J>>, parse: Body -> Parse<J>, r: Incoming,
                    ghost routes: seq<Route<J>>, ghost sequences: set<SequenceResponse>)
      returns (served: Served)
      requires group == GroupOf(routes, r.verb, r.path) && Registered(sequences)
      modifies this, sequences
      ensures Registered(sequences) && handlers == old(handlers)
      ensures SequencesFilled(old(View(sequences)))
      ensures (View(sequences), served) == Serve(old(View(sequences)), routes, parse, r)
    {
      var choice := ChooseRoute(group, parse, r);
      match choice
      case NoMatch => return NotFound;
      case MatchCrashed => return ServerError;
      case Chosen(route) =>
        var recorded := Recorded(r, route.handlerName);
        history := history + [recorded];
        historyMap := historyMap[route.handlerName :=
          (if route.handlerName in historyMap then historyMap[route.handlerName] else []) + [recorded]];
        assert View(sequences) == Record(old(View(sequences)), recorded);
        if route.handlerName !in handlers {
          return ServerError;
        }
        match handlers[route.handlerName]
        case Fixed(reply) => return Sent(reply);
        case Sequenced(o) =>
          ghost var before := map x | x in sequences :: x.index;
          var reply := o.Pick();
          assert (map x | x in sequences :: x.index) == before[o := o.index];
          return if reply.Some? then Sent(reply.value) else ServerError;
    }

    /** MockService.get_calls */
    function GetCalls(name: string): (calls: seq<Recorded>)
      reads this
      ensures calls == Calls(View({}), name)
    {
      if name in historyMap then historyMap[name] else []
    }

    /** MockService.assert_called: the loop over the recorded calls. */
    method AssertWasCalled(name: string, times: Option<int>, c: Criteria<J>, parse: Body -> Parse<J>)
      returns (verdict: Verdict)
      ensures verdict == AssertCalled(View({}), name, times, c, parse)
      ensures var calls := GetCalls(name);
              times.None? || (times.value == |calls| && !NoCriteria(c)) ==>
                && (verdict == AssertionFailed <==>
                      forall i :: 0 <= i < |calls| ==> Meets(c, parse, calls[i].request) == No)
                && (verdict == Passed <==> exists i :: FirstAnswer(calls, c, parse, i, Yes))
                && (verdict == AssertCrashed <==> exists i :: FirstAnswer(calls, c, parse, i, Crash))
    {
      VerdictIff(View({}), name, times, c, parse);
      var calls := GetCalls(name);
      if times.Some? {
        if |calls| != times.value {
          return AssertionFailed;
        }
        if NoCriteria(c) {
          return Passed;
        }
      }
      for i := 0 to |calls|
        invariant Scan(calls, c, parse) == Scan(calls[i..], c, parse)
      {
        assert calls[i..][1..] == calls[i + 1..];
        match Meets(c, parse, calls[i].request)
        case Yes => return Passed;
        case Crash => return AssertCrashed;
        case No =>
      }
      return AssertionFailed;
    }
  }

  function DeclaredNames<J>(routes: seq<Route<J>>): set<string> {
    set i | 0 <= i < |routes| :: routes[i].handlerName
  }

  // ---- reachable states --------------------------------------------------------------------------------------------

  datatype Operation = Register(name: string, responder: Responder) | Request(incoming: Incoming)

  predicate ValidOperation(op: Operation) {
    op.Register? && op.responder.Sequenced? ==> op.responder.sequence.responses != []
  }

  function Operated<J(==)>(s: ServerState, routes: seq<Route<J>>, parse: Body -> Parse<J>, op: Operation)
    : (after: ServerState)
    requires SequencesFilled(s) && ValidOperation(op)
    ensures SequencesFilled(after)
  {
    match op
    case Register(name, responder) =>
      if name in DeclaredNames(routes) then s.(handlers := s.handlers[name := responder]) else s
    case Request(r) => Serve(s, routes, parse, r).0
  }

  /** The state after a list of operations on a freshly started service. */
  function StateAfter<J(==)>(routes: seq<Route<J>>, parse: Body -> Parse<J>, ops: seq<Operation>): (s: ServerState)
    requires forall op :: op in ops ==> ValidOperation(op)
    ensures SequencesFilled(s)
  {
    if ops == [] then ServerState([], map[], map[], map[])
    else Operated(StateAfter(routes, parse, ops[..|ops| - 1]), routes, parse, ops[|ops| - 1])
  }

  /** The recorded requests of one handler, in order. */
  function OfHandler(history: seq<Recorded>, name: string): seq<Recorded> {
    if history == [] then []
    else OfHandler(history[..|history| - 1], name)
         + (if history[|history| - 1].handlerName == name then [history[|history| - 1]] else [])
  }

  lemma OfHandlerAppend(history: seq<Recorded>, r: Recorded, name: string)
    ensures OfHandler(history + [r], name) == OfHandler(history, name) + (if r.handlerName == name then [r] else [])
  {
    assert (history + [r])[..|history|] == history;
  }

  /** The two indices of a history agree, and only declared names appear. */
  ghost predicate IndicesAgree<J>(s: ServerState, routes: seq<Route<J>>) {
    (forall name :: Calls(s, name) == OfHandler(s.history, name))
    && s.historyMap.Keys <= DeclaredNames(routes)
    && s.handlers.Keys <= DeclaredNames(routes)
    && (forall i :: 0 <= i < |s.history| ==> s.history[i].handlerName in DeclaredNames(routes))
  }

  lemma {:induction false} ChosenIsDeclared<J>(routes: seq<Route<J>>, parse: Body -> Parse<J>, r: Incoming)
    ensures var choice := FlatMatch(routes, parse, r);
            choice.Chosen? ==> choice.route in routes && choice.route.handlerName in DeclaredNames(routes)
                               && choice.route.verb == r.verb && choice.route.path == r.path
                               && RouteMeets(choice.route, parse, r) == Yes
  {
    if routes != [] {
      ChosenIsDeclared(routes[1..], parse, r);
      var choice := FlatMatch(routes, parse, r);
      if choice.Chosen? {
        var i :| 0 <= i < |routes| && routes[i] == choice.route;
      }
    }
  }

  lemma RecordKeepsAgreement<J>(s: ServerState, routes: seq<Route<J>>, r: Recorded)
    requires IndicesAgree(s, routes) && r.handlerName in DeclaredNames(routes)
    ensures IndicesAgree(Record(s, r), routes)
  {
    forall name ensures Calls(Record(s, r), name) == OfHandler(Record(s, r).history, name) {
      OfHandlerAppend(s.history, r, name);
    }
  }

  /** In every reachable state the per-name history is the order-preserving filter of the whole history, and
      registered and recorded names are declared ones. */
  lemma {:induction false} IndexAgreement<J>(routes: seq<Route<J>>, parse: Body -> Parse<J>, ops: seq<Operation>)
    requires forall op :: op in ops ==> ValidOperation(op)
    ensures IndicesAgree(StateAfter(routes, parse, ops), routes)
  {
    if ops != [] {
      IndexAgreement(routes, parse, ops[..|ops| - 1]);
      var s, op := StateAfter(routes, parse, ops[..|ops| - 1]), ops[|ops| - 1];
      if op.Request? {
        GroupedIsFlat(routes, parse, op.incoming);
        ChosenIsDeclared(routes, parse, op.incoming);
        var choice := FlatMatch(routes, parse, op.incoming);
        if choice.Chosen? {
          RecordKeepsAgreement(s, routes, Recorded(op.incoming, choice.route.handlerName));
        }
      }
    }
  }

  /** The latest response registered for a handler is the one in force; a name that is not declared never has one, nor has
      one for which none was registered. */
  lemma {:induction false} LastRegistrationCounts<J>(routes: seq<Route<J>>, parse: Body -> Parse<J>, ops: seq<Operation>,
                                                     name: string)
    requires forall op :: op in ops ==> ValidOperation(op)
    ensures var handlers := StateAfter(routes, parse, ops).handlers;
            (name in handlers <==> name in DeclaredNames(routes) && exists i: nat :: Registers(ops, i, name))
            && forall i: nat :: Registers(ops, i, name) && name in handlers && (forall j: nat :: i < j ==> !Registers(ops, j, name)) ==>
                 handlers[name] == ops[i].responder
  {
    if ops != [] {
      var before, op := ops[..|ops| - 1], ops[|ops| - 1];
      LastRegistrationCounts(routes, parse, before, name);
      var s := StateAfter(routes, parse, before);
      assert forall i :: 0 <= i < |ops| - 1 ==> (Registers(ops, i, name) <==> Registers(before, i, name));
      assert forall i: nat :: Registers(before, i, name) ==> i < |ops| - 1;
      assert Registers(ops, |ops| - 1, name) <==> op.Register? && op.name == name;
      if op.Request? { RequestIsRecorded(s, routes, parse, op.incoming); }
    }
  }

  ghost predicate Registers(ops: seq<Operation>, i: nat, name: string) {
    i < |ops| && ops[i].Register? && ops[i].name == name
  }

  /** What one request does to the records: nothing when no route matches, and exactly one new record of the chosen
      handler otherwise, also when that handler has no response or an exhausted one. */
  lemma RequestIsRecorded<J>(s: ServerState, routes: seq<Route<J>>, parse: Body -> Parse<J>, r: Incoming)
    requires SequencesFilled(s)
    ensures var after, choice := Serve(s, routes, parse, r).0, FlatMatch(routes, parse, r);
            match choice
            case Chosen(route) =>
              after.history == s.history + [Recorded(r, route.handlerName)]
              && (forall name :: Calls(after, name)
                                 == Calls(s, name) + if name == route.handlerName then [Recorded(r, name)] else [])
              && after.handlers == s.handlers
              && (route.handlerName !in s.handlers ==> Serve(s, routes, parse, r).1 == ServerError)
              && (forall reply :: route.handlerName in s.handlers && s.handlers[route.handlerName] == Fixed(reply) ==>
                    Serve(s, routes, parse, r).1 == Sent(reply) && after.positions == s.positions)
            case _ => after == s && Serve(s, routes, parse, r).1 == if choice.NoMatch? then NotFound else ServerError
  {
    GroupedIsFlat(routes, parse, r);
  }

  /** The sum of the per-name history lengths. */
  ghost function TotalCalls(s: ServerState, names: set<string>): nat {
    if names == {} then 0
    else
      var name :| name in names;
      |Calls(s, name)| + TotalCalls(s, names - {name})
  }

  /** How many records of a history are of the given names. */
  function CountOf(history: seq<Recorded>, names: set<string>): nat {
    if history == [] then 0
    else CountOf(history[..|history| - 1], names) + if history[|history| - 1].handlerName in names then 1 else 0
  }

  lemma {:induction false} CountOfSplits(history: seq<Recorded>, names: set<string>, name: string)
    requires name in names
    ensures CountOf(history, names) == |OfHandler(history, name)| + CountOf(history, names - {name})
    ensures CountOf(history, {}) == 0
  {
    if history != [] { CountOfSplits(history[..|history| - 1], names, name); }
  }

  lemma {:induction false} TotalIsCount(s: ServerState, names: set<string>)
    requires forall name :: Calls(s, name) == OfHandler(s.history, name)
    ensures TotalCalls(s, names) == CountOf(s.history, names)
    decreases names
  {
    if names == {} {
      CountOfSplits(s.history, {""}, "");
    } else {
      var name :| name in names && TotalCalls(s, names) == |Calls(s, name)| + TotalCalls(s, names - {name});
      CountOfSplits(s.history, names, name);
      TotalIsCount(s, names - {name});
    }
  }

  lemma {:induction false} AllCounted(history: seq<Recorded>, names: set<string>)
    requires forall i :: 0 <= i < |history| ==> history[i].handlerName in names
    ensures CountOf(history, names) == |history|
  {
    if history != [] { AllCounted(history[..|history| - 1], names); }
  }

  /** The per-name histories add up to the whole history. */
  lemma HistoriesAddUp<J>(routes: seq<Route<J>>, parse: Body -> Parse<J>, ops: seq<Operation>)
    requires forall op :: op in ops ==> ValidOperation(op)
    ensures var s := StateAfter(routes, parse, ops); TotalCalls(s, DeclaredNames(routes)) == |s.history|
  {
    var s := StateAfter(routes, parse, ops);
    IndexAgreement(routes, parse, ops);
    TotalIsCount(s, DeclaredNames(routes));
    AllCounted(s.history, DeclaredNames(routes));
  }

  // ---- assertions over history -----------------------------------------------------------------------------------

  datatype Verdict = Passed | AssertionFailed | AssertCrashed

  /** The loop of assert_called over the recorded calls. */
  function Scan<J(==)>(calls: seq<Recorded>, c: Criteria<J>, parse: Body -> Parse<J>): Verdict {
    if calls == [] then AssertionFailed
    else
      match Meets(c, parse, calls[0].request)
      case Yes => Passed
      case Crash => AssertCrashed
      case No => Scan(calls[1..], c, parse)
  }

  predicate NoCriteria<J>(c: Criteria<J>) {
    c.json.None? && c.body.None? && c.headers.None? && c.query.None?
  }

  /** MockService.assert_called */
  function AssertCalled<J(==)>(s: ServerState, name: string, times: Option<int>, c: Criteria<J>, parse: Body -> Parse<J>)
    : Verdict
  {
    var calls := Calls(s, name);
    if times.Some? && |calls| != times.value then AssertionFailed
    else if times.Some? && NoCriteria(c) then Passed
    else Scan(calls, c, parse)
  }

  /** How many of the requests received are dispatched to a handler. */
  function Dispatches<J(==)>(routes: seq<Route<J>>, parse: Body -> Parse<J>, ops: seq<Operation>, name: string): nat {
    if ops == [] then 0
    else
      var op := ops[|ops| - 1];
      Dispatches(routes, parse, ops[..|ops| - 1], name)
      + if op.Request? && FlatMatch(routes, parse, op.incoming).Chosen?
           && FlatMatch(routes, parse, op.incoming).route.handlerName == name then 1 else 0
  }

  lemma {:induction false} CallsAreDispatches<J>(routes: seq<Route<J>>, parse: Body -> Parse<J>, ops: seq<Operation>,
                                                 name: string)
    requires forall op :: op in ops ==> ValidOperation(op)
    ensures |Calls(StateAfter(routes, parse, ops), name)| == Dispatches(routes, parse, ops, name)
  {
    hide FlatMatch, Serve;
    if ops != [] {
      CallsAreDispatches(routes, parse, ops[..|ops| - 1], name);
      var op := ops[|ops| - 1];
      if op.Request? {
        RequestIsRecorded(StateAfter(routes, parse, ops[..|ops| - 1]), routes, parse, op.incoming);
      }
    }
  }

  /** With only `times`, the assertion passes iff exactly that many requests were dispatched to the handler. */
  lemma TimesCountsDispatches<J>(routes: seq<Route<J>>, parse: Body -> Parse<J>, ops: seq<Operation>, name: string, n: int)
    requires forall op :: op in ops ==> ValidOperation(op)
    ensures var s := StateAfter(routes, parse, ops);
            AssertCalled(s, name, Some(n), Criteria(None, None, None, None), parse) == Passed
            <==> n == Dispatches(routes, parse, ops, name)
  {
    CallsAreDispatches(routes, parse, ops, name);
  }

  /** The scan stops at the first call that does not simply fail to match. */
  lemma {:induction false} ScanStopsAt<J>(calls: seq<Recorded>, c: Criteria<J>, parse: Body -> Parse<J>, i: nat)
    requires i < |calls| && Meets(c, parse, calls[i].request) != No
    requires forall j :: 0 <= j < i ==> Meets(c, parse, calls[j].request) == No
    ensures Scan(calls, c, parse) == if Meets(c, parse, calls[i].request) == Yes then Passed else AssertCrashed
  {
    if i > 0 { ScanStopsAt(calls[1..], c, parse, i - 1); }
  }

  lemma {:induction false} ScanFindsNothing<J>(calls: seq<Recorded>, c: Criteria<J>, parse: Body -> Parse<J>)
    requires forall i :: 0 <= i < |calls| ==> Meets(c, parse, calls[i].request) == No
    ensures Scan(calls, c, parse) == AssertionFailed
  {
    if calls != [] { ScanFindsNothing(calls[1..], c, parse); }
  }

  /** Call i answers so, and all before it do not meet the criteria. */
  ghost predicate FirstAnswer<J>(calls: seq<Recorded>, c: Criteria<J>, parse: Body -> Parse<J>, i: nat, answer: Answer) {
    i < |calls| && Meets(c, parse, calls[i].request) == answer
    && forall j :: 0 <= j < i ==> Meets(c, parse, calls[j].request) == No
  }

  /** The assertion fails when a given count is not that of the calls. Otherwise, with no criteria and a count it passes;
      and else it fails exactly when no call meets the criteria, as when there is none, passes exactly when some call does
      and all before it do not, and crashes exactly when some call crashes and all before it do not meet them. */
  lemma VerdictIff<J>(s: ServerState, name: string, times: Option<int>, c: Criteria<J>, parse: Body -> Parse<J>)
    ensures var calls, verdict := Calls(s, name), AssertCalled(s, name, times, c, parse);
            if times.Some? && times.value != |calls| then verdict == AssertionFailed
            else if times.Some? && c == Criteria(None, None, None, None) then verdict == Passed
            else
              && (verdict == AssertionFailed <==> forall i :: 0 <= i < |calls| ==> Meets(c, parse, calls[i].request) == No)
              && (verdict == Passed <==> exists i :: FirstAnswer(calls, c, parse, i, Yes))
              && (verdict == AssertCrashed <==> exists i :: FirstAnswer(calls, c, parse, i, Crash))
  {
    hide Meets;
    var calls := Calls(s, name);
    if i :| 0 <= i < |calls| && Meets(c, parse, calls[i].request) != No {
      var first := FirstNotNo(calls, c, parse, i);
      ScanStopsAt(calls, c, parse, first);
      assert FirstAnswer(calls, c, parse, first, Meets(c, parse, calls[first].request));
    } else {
      ScanFindsNothing(calls, c, parse);
    }
  }

  lemma {:induction false} FirstNotNo<J>(calls: seq<Recorded>, c: Criteria<J>, parse: Body -> Parse<J>, i: nat)
    returns (first: nat)
    requires i < |calls| && Meets(c, parse, calls[i].request) != No
    ensures first <= i && Meets(c, parse, calls[first].request) != No
    ensures forall j :: 0 <= j < first ==> Meets(c, parse, calls[j].request) == No
  {
    if j :| 0 <= j < i && Meets(c, parse, calls[j].request) != No {
      first := FirstNotNo(calls, c, parse, j);
    } else {
      first := i;
    }
  }

  /** No call recorded before the first one that meets the criteria makes the assertion crash. */
  ghost predicate NoCrashFirst<J>(calls: seq<Recorded>, c: Criteria<J>, parse: Body -> Parse<J>) {
    forall i :: 0 <= i < |calls| && Meets(c, parse, calls[i].request) == Crash ==>
      exists j :: 0 <= j < i && Meets(c, parse, calls[j].request) == Yes
  }

  lemma {:induction false} StateGrows<J>(routes: seq<Route<J>>, parse: Body -> Parse<J>, ops: seq<Operation>, n: nat,
                                         name: string)
    requires forall op :: op in ops ==> ValidOperation(op)
    requires n <= |ops|
    ensures Calls(StateAfter(routes, parse, ops[..n]), name) <= Calls(StateAfter(routes, parse, ops), name)
  {
    if n < |ops| {
      var before := ops[..|ops| - 1];
      assert before[..n] == ops[..n];
      StateGrows(routes, parse, before, n, name);
      var op := ops[|ops| - 1];
      if op.Request? {
        RequestIsRecorded(StateAfter(routes, parse, before), routes, parse, op.incoming);
      }
    } else {
      assert ops[..n] == ops;
    }
  }

  /** A dispatched request is among the calls of its handler in every later state. */
  lemma DispatchedIsRecorded<J>(routes: seq<Route<J>>, parse: Body -> Parse<J>, ops: seq<Operation>, n: nat)
    returns (mine: nat)
    requires forall op :: op in ops ==> ValidOperation(op)
    requires n < |ops| && ops[n].Request? && FlatMatch(routes, parse, ops[n].incoming).Chosen?
    ensures var name := FlatMatch(routes, parse, ops[n].incoming).route.handlerName;
            var calls := Calls(StateAfter(routes, parse, ops), name);
            mine < |calls| && calls[mine] == Recorded(ops[n].incoming, name)
  {
    hide FlatMatch, Calls;
    var name := FlatMatch(routes, parse, ops[n].incoming).route.handlerName;
    var upTo := ops[..n + 1];
    assert upTo[..n] == ops[..n] && upTo[n] == ops[n];
    RequestIsRecorded(StateAfter(routes, parse, ops[..n]), routes, parse, ops[n].incoming);
    StateGrows(routes, parse, ops, n + 1, name);
    mine := |Calls(StateAfter(routes, parse, ops[..n]), name)|;
  }

  /** What scanning calls gives when one of them meets the criteria. */
  lemma ScanVerdict<J>(calls: seq<Recorded>, c: Criteria<J>, parse: Body -> Parse<J>, mine: nat)
    requires mine < |calls| && Meets(c, parse, calls[mine].request) == Yes
    ensures var verdict := Scan(calls, c, parse);
            && verdict != AssertionFailed
            && (verdict == Passed <==> NoCrashFirst(calls, c, parse))
            && (c.json.None? ==> verdict == Passed)
  {
    hide Meets;
    var first := FirstNotNo(calls, c, parse, mine);
    ScanStopsAt(calls, c, parse, first);
    CrashIff(c, parse, calls[first].request);
    if Meets(c, parse, calls[first].request) == Yes {
      assert forall i :: 0 <= i < |calls| && Meets(c, parse, calls[i].request) == Crash ==> first < i;
    }
  }

  /** Once a request has been dispatched through a route with a match, asserting that match on its handler never
      fails in any later state; it passes iff no earlier call of that handler makes it crash first, and so always
      when the match has no JSON criterion. */
  lemma MatchedRequestsAreAsserted<J>(routes: seq<Route<J>>, parse: Body -> Parse<J>, ops: seq<Operation>, n: nat)
    requires forall op :: op in ops ==> ValidOperation(op)
    requires n < |ops| && ops[n].Request?
    requires var choice := FlatMatch(routes, parse, ops[n].incoming); choice.Chosen? && choice.route.criteria.Some?
    ensures var route := FlatMatch(routes, parse, ops[n].incoming).route;
            var s, c := StateAfter(routes, parse, ops), route.criteria.value;
            var verdict := AssertCalled(s, route.handlerName, None, c, parse);
            && verdict != AssertionFailed
            && (verdict == Passed <==> NoCrashFirst(Calls(s, route.handlerName), c, parse))
            && (c.json.None? ==> verdict == Passed)
  {
    var route := FlatMatch(routes, parse, ops[n].incoming).route;
    var s, c := StateAfter(routes, parse, ops), route.criteria.value;
    ChosenIsDeclared(routes, parse, ops[n].incoming);
    var calls := Calls(s, route.handlerName);
    var mine := DispatchedIsRecorded(routes, parse, ops, n);
    ScanVerdict(calls, c, parse, mine);
  }

  /** The crash is real: two routes of one handler, the first request with a body of one byte 0xff, which is not text,
      and taken by the route without criteria; the second, with body "1", matched by its JSON. Asserting that JSON then
      raises instead of passing. */
  lemma AssertionCanCrash(parse: Body -> Parse<int>)
    requires parse([255]) == NotText && parse([49]) == Parsed(1)
    ensures var c := Criteria(Some(1), None, None, None);
            var plain, strict := Route("GET", "/plain", "h", None), Route("POST", "/strict", "h", Some(c));
            var ops := [Request(Incoming("GET", "/plain", [], [], [255])), Request(Incoming("POST", "/strict", [], [], [49]))];
            (forall op :: op in ops ==> ValidOperation(op))
            && AssertCalled(StateAfter([plain, strict], parse, ops), "h", None, c, parse) == AssertCrashed
  {
    var c: Criteria<int> := Criteria(Some(1), None, None, None);
    var plain, strict := Route("GET", "/plain", "h", None), Route("POST", "/strict", "h", Some(c));
    var routes := [plain, strict];
    var first, second := Incoming("GET", "/plain", [], [], [255]), Incoming("POST", "/strict", [], [], [49]);
    var ops := [Request(first), Request(second)];
    assert ops[..1] == [Request(first)] && ops[..1][..0] == [];
    assert routes[1..] == [strict];
    var s0 := StateAfter(routes, parse, []);
    var s1 := StateAfter(routes, parse, ops[..1]);
    assert s1 == Serve(s0, routes, parse, first).0;
    RequestIsRecorded(s0, routes, parse, first);
    assert FlatMatch(routes, parse, first) == Chosen(plain);
    RequestIsRecorded(s1, routes, parse, second);
    assert FlatMatch(routes, parse, second) == FlatMatch([strict], parse, second);
    assert Meets(c, parse, second) == Yes;
    var calls := Calls(StateAfter(routes, parse, ops), "h");
    assert calls == [Recorded(first, "h"), Recorded(second, "h")];
    ScanStopsAt(calls, c, parse, 0);
  }
}
