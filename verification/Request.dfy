/** The keyword arguments of one logical request: body, header lists, proxy settings and middlewares. */
module Request {
  import opened Wrappers

  newtype byte = x: int | 0 <= x < 256

  /** The bytes of a message. */
  type Body = seq<byte>

  // ---- bodies --------------------------------------------------------------------------------

  /** A `data=` argument. Foreign covers streams, files and every type the client does not recognise. */
  datatype Data =
    | NoData
    | Scalar(text: string)              // str, bytes, bytearray, memoryview, int, float, bool
    | Mapping(values: seq<Data>)        // the values; the keys are never inspected
    | Items(items: seq<Data>)           // list, tuple and other sequences
    | Foreign(id: nat)

  /** A (name, value) pair of a form list. */
  predicate IsPair(d: Data) {
    d.Items? && |d.items| == 2
  }

  /** _is_replayable_data */
  predicate IsReplayableData(d: Data) {
    match d
    case NoData => true
    case Scalar(_) => true
    case Mapping(vs) => forall i :: 0 <= i < |vs| ==> IsReplayableData(vs[i])
    case Items(items) =>
      forall i :: 0 <= i < |items| ==> IsPair(items[i]) && IsReplayableData(items[i].items[1])
    case Foreign(_) => false
  }

  /** Some value position of the body, at some depth, holds a one-shot object. */
  ghost predicate HoldsOneShot(d: Data) {
    match d
    case NoData => false
    case Scalar(_) => false
    case Mapping(vs) => exists i :: 0 <= i < |vs| && HoldsOneShot(vs[i])
    case Items(items) =>
      exists i :: 0 <= i < |items| && IsPair(items[i]) && HoldsOneShot(items[i].items[1])
    case Foreign(_) => true
  }

  /** Every list in a value position is a list of pairs. */
  ghost predicate IsForm(d: Data) {
    match d
    case Mapping(vs) => forall i :: 0 <= i < |vs| ==> IsForm(vs[i])
    case Items(items) => forall i :: 0 <= i < |items| ==> IsPair(items[i]) && IsForm(items[i].items[1])
    case _ => true
  }

  /** The check accepts exactly the forms without a one-shot object in a value position. */
  lemma {:induction false} ReplayableIff(d: Data)
    ensures IsReplayableData(d) <==> IsForm(d) && !HoldsOneShot(d)
  {
    match d
    case Mapping(vs) =>
      forall i | 0 <= i < |vs| { ReplayableIff(vs[i]); }
    case Items(items) =>
      forall i | 0 <= i < |items| && IsPair(items[i]) { ReplayableIff(items[i].items[1]); }
    case _ =>
  }

  /** Two bodies that differ at most in what stands in the name positions of pairs, at any depth. */
  ghost predicate SameValues(a: Data, b: Data) {
    match a
    case Mapping(vs) =>
      b.Mapping? && |vs| == |b.values| && forall i :: 0 <= i < |vs| ==> SameValues(vs[i], b.values[i])
    case Items(items) =>
      && b.Items? && |items| == |b.items|
      && forall i :: 0 <= i < |items| ==>
           || items[i] == b.items[i]
           || (IsPair(items[i]) && IsPair(b.items[i]) && SameValues(items[i].items[1], b.items[i].items[1]))
    case _ => a == b
  }

  /** The check does not depend on what stands in name positions: a stream there is never noticed. */
  lemma {:induction false} NamePositionIsNotChecked(a: Data, b: Data)
    requires SameValues(a, b)
    ensures IsReplayableData(a) <==> IsReplayableData(b)
  {
    match a
    case Mapping(vs) =>
      forall i | 0 <= i < |vs| ensures IsReplayableData(vs[i]) <==> IsReplayableData(b.values[i]) {
        NamePositionIsNotChecked(vs[i], b.values[i]);
      }
    case Items(items) =>
      forall i | 0 <= i < |items| && items[i] != b.items[i]
        ensures IsReplayableData(items[i].items[1]) <==> IsReplayableData(b.items[i].items[1])
      {
        NamePositionIsNotChecked(items[i].items[1], b.items[i].items[1]);
      }
    case _ =>
  }

  /** Such a body: one pair with a stream for its name. */
  lemma StreamAsName(id: nat)
    ensures var pair := Items([Foreign(id), Scalar("x")]);
            IsReplayableData(Items([pair])) && pair.items[0] == Foreign(id)
  {
    var pair := Items([Foreign(id), Scalar("x")]);
    assert IsPair(pair) && IsReplayableData(pair.items[1]);
  }

  // ---- keyword arguments -----------------------------------------------------------------------

  type Field = (string, string)

  datatype BasicAuth = BasicAuth(login: string, password: string, encoding: string)

  /** An `auth=` or `proxy_auth=` argument. */
  datatype AuthArg = NotGiven | NoAuth | Basic(auth: BasicAuth) | OtherAuth

  datatype ProxyArg = ProxyNotGiven | Proxy(url: Option<string>)

  datatype Middleware = ExposeTransportErrors | ForwardProxyAuth | UserMiddleware(id: nat)

  datatype TraceContext = TraceContext(client: string, operation: string)

  datatype Kwargs = Kwargs(
    auth: AuthArg, proxyAuth: AuthArg, proxy: ProxyArg,
    headers: Option<seq<Field>>, proxyHeaders: Option<seq<Field>>,
    middlewares: seq<Middleware>, data: Option<Data>, traceContext: Option<TraceContext>)

  /** _is_request_replayable */
  predicate IsReplayable(k: Kwargs) {
    k.data.None? || IsReplayableData(k.data.value)
  }

  /** The request can be sent again: it has no body, or a form without a one-shot object in a value position. */
  ghost predicate CanBeSentAgain(k: Kwargs) {
    k.data.Some? ==> IsForm(k.data.value) && !HoldsOneShot(k.data.value)
  }

  lemma IsReplayableIff(k: Kwargs)
    ensures IsReplayable(k) <==> CanBeSentAgain(k)
  {
    if k.data.Some? { ReplayableIff(k.data.value); }
  }
}
