/** Exceptions as the client sees them: which classes they are instances of, and the attributes it reads.
    Nothing is assumed about the class hierarchy: an exception carries the set of classes it belongs to. */
module Exceptions {
  import opened Wrappers

  datatype Class =
    | BaseException | Exception | CancelledError
    | TimeoutError | ConnectionTimeoutError | ServerTimeoutError
    | ClientConnectorSSLError | ClientConnectorCertificateError | ClientSSLError
    | ClientConnectorDNSError | ClientConnectorError | ClientConnectionError
    | ServerDisconnectedError | ConnectionResetError | ClientOSError | ClientPayloadError
    | OverflowError | ValueError | TypeError | RuntimeError | UnhandledStatus
    | OtherClass(name: string)

  datatype Exn = Exn(
    id: nat,                      // object identity
    classes: set<Class>,
    status: Option<int>,          // attribute `status`
    statusCode: Option<int>,      // attribute `status_code`
    econnreset: bool,             // errno is ECONNRESET
    gaiError: bool)               // os_error is a socket.gaierror

  /** isinstance(e, c) */
  predicate IsInstance(e: Exn, c: Class) {
    c == BaseException || c in e.classes
  }

  /** isinstance(e, (c0, c1, ...)) */
  predicate IsInstanceOfAny(e: Exn, cs: seq<Class>) {
    exists c :: c in cs && IsInstance(e, c)
  }

  /** What propagates inside the client: an exception, or the private wrapper around a transport error. */
  datatype Thrown = Genuine(exn: Exn) | ObservableTransportError(original: Exn)

  /** Would `except Exception` catch it? */
  predicate Catchable(t: Thrown) {
    t.ObservableTransportError? || IsInstance(t.exn, Exception)
  }

  /** _unwrap_observable_transport_error */
  function Unwrap(t: Thrown): Exn {
    match t
    case Genuine(e) => e
    case ObservableTransportError(e) => e
  }

  /** An exception the client itself raises. */
  function Own(c: Class): Exn {
    Exn(0, {c, Exception}, None, None, false, false)
  }

  /** UnhandledStatusException(..., status=status) */
  function UnhandledStatusError(code: int): Exn {
    Exn(0, {UnhandledStatus, Exception}, Some(code), None, false, false)
  }

  // ---- normalised metric labels ------------------------------------------------------------

  datatype OutcomeLabel = Response | Timeout | NetworkError | Cancelled

  datatype ErrorLabel =
    | NoError | ConnectError | ReadTimeout | TlsError | DnsError | ServerDisconnected
    | ConnectionReset | PayloadError | InvalidResponse | OtherError

  datatype StatusLabel = Code(status: int) | NoStatus | OkStatus

  /** classify_exception: the ordered isinstance ladder. */
  function ClassifyException(e: Exn): (r: (OutcomeLabel, ErrorLabel))
    ensures r.0 != Response && r.1 != InvalidResponse
    ensures r.0 == Cancelled <==> IsInstance(e, CancelledError)
    ensures r.1 == NoError <==> r.0 == Cancelled
  {
    if IsInstance(e, CancelledError) then (Cancelled, NoError)
    else if IsInstance(e, ConnectionTimeoutError) then (Timeout, ConnectError)
    else if IsInstanceOfAny(e, [ServerTimeoutError, TimeoutError]) then (Timeout, ReadTimeout)
    else if IsInstanceOfAny(e, [ClientConnectorSSLError, ClientConnectorCertificateError, ClientSSLError])
      then (NetworkError, TlsError)
    else if IsInstance(e, ClientConnectorDNSError) || e.gaiError then (NetworkError, DnsError)
    else if IsInstance(e, ClientConnectorError) then (NetworkError, ConnectError)
    else if IsInstance(e, ServerDisconnectedError) then (NetworkError, ServerDisconnected)
    else if IsInstance(e, ConnectionResetError) || (IsInstance(e, ClientOSError) && e.econnreset)
      then (NetworkError, ConnectionReset)
    else if IsInstance(e, ClientPayloadError) then (NetworkError, PayloadError)
    else (NetworkError, OtherError)
  }

  /** A network diagnosis holds of an exception. */
  predicate TrueOf(diagnosis: ErrorLabel, e: Exn) {
    match diagnosis
    case TlsError => IsInstanceOfAny(e, [ClientConnectorSSLError, ClientConnectorCertificateError, ClientSSLError])
    case DnsError => IsInstance(e, ClientConnectorDNSError) || e.gaiError
    case ConnectError => IsInstance(e, ClientConnectorError)
    case ServerDisconnected => IsInstance(e, ServerDisconnectedError)
    case ConnectionReset => IsInstance(e, ConnectionResetError) || (IsInstance(e, ClientOSError) && e.econnreset)
    case PayloadError => IsInstance(e, ClientPayloadError)
    case OtherError => true
    case _ => false
  }

  /** The diagnoses from the most specific to the least. */
  const LADDER := [TlsError, DnsError, ConnectError, ServerDisconnected, ConnectionReset, PayloadError, OtherError]

  /** What the labels say of the exception: it was a timeout iff it is one, and any other failure that is no cancellation
      gets the most specific diagnosis that holds. */
  lemma MostSpecificDiagnosis(e: Exn) returns (rung: nat)
    ensures var r := ClassifyException(e);
            && (r.0 == Timeout <==> !IsInstance(e, CancelledError)
                                    && IsInstanceOfAny(e, [ConnectionTimeoutError, ServerTimeoutError, TimeoutError]))
            && (r.0 == Timeout ==> r.1 == if IsInstance(e, ConnectionTimeoutError) then ConnectError else ReadTimeout)
            && (r.0 == NetworkError ==>
                  && rung < |LADDER| && r.1 == LADDER[rung] && TrueOf(r.1, e)
                  && forall i :: 0 <= i < rung ==> !TrueOf(LADDER[i], e))
  {
    hide IsInstanceOfAny;
    AnyOfPair(e, ServerTimeoutError, TimeoutError);
    AnyOfThree(e, ConnectionTimeoutError, ServerTimeoutError, TimeoutError);
    var d := ClassifyException(e).1;
    rung := if d == TlsError then 0 else if d == DnsError then 1 else if d == ConnectError then 2
            else if d == ServerDisconnected then 3 else if d == ConnectionReset then 4 else if d == PayloadError then 5 else 6;
  }

  lemma AnyOfPair(e: Exn, a: Class, b: Class)
    ensures IsInstanceOfAny(e, [a, b]) <==> IsInstance(e, a) || IsInstance(e, b)
  {
    var cs := [a, b];
    assert cs[0] == a && cs[1] == b && a in cs && b in cs;
  }

  lemma AnyOfThree(e: Exn, a: Class, b: Class, c: Class)
    ensures IsInstanceOfAny(e, [a, b, c]) <==> IsInstance(e, a) || IsInstance(e, b) || IsInstance(e, c)
  {
    var cs := [a, b, c];
    assert cs[0] == a && cs[1] == b && cs[2] == c && a in cs && b in cs && c in cs;
  }

  /** aiohttp's class hierarchy, as far as it overlaps. */
  predicate Inherits(c: Class, d: Class) {
    d == Exception
    || match c
       case ConnectionTimeoutError => d == ServerTimeoutError || d == TimeoutError || d == ClientConnectionError
       case ServerTimeoutError => d == TimeoutError || d == ClientConnectionError
       case ClientConnectorSSLError => d == ClientSSLError || IsConnector(d)
       case ClientConnectorCertificateError => d == ClientSSLError || IsConnector(d)
       case ClientSSLError => IsConnector(d)
       case ClientConnectorDNSError => IsConnector(d)
       case ClientConnectorError => d == ClientOSError || d == ClientConnectionError
       case ClientOSError => d == ClientConnectionError
       case ServerDisconnectedError => d == ClientConnectionError
       case _ => false
  }

  /** ClientConnectorError and what it inherits from. */
  predicate IsConnector(d: Class) {
    d == ClientConnectorError || d == ClientOSError || d == ClientConnectionError
  }

  /** The labels meant for each class, one by one and in no order. */
  function MeantFor(c: Class): Option<(OutcomeLabel, ErrorLabel)> {
    match c
    case ConnectionTimeoutError => Some((Timeout, ConnectError))
    case ServerTimeoutError => Some((Timeout, ReadTimeout))
    case TimeoutError => Some((Timeout, ReadTimeout))
    case ClientConnectorSSLError => Some((NetworkError, TlsError))
    case ClientConnectorCertificateError => Some((NetworkError, TlsError))
    case ClientSSLError => Some((NetworkError, TlsError))
    case ClientConnectorDNSError => Some((NetworkError, DnsError))
    case ClientConnectorError => Some((NetworkError, ConnectError))
    case ServerDisconnectedError => Some((NetworkError, ServerDisconnected))
    case ConnectionResetError => Some((NetworkError, ConnectionReset))
    case ClientPayloadError => Some((NetworkError, PayloadError))
    case _ => None
  }

  /** The ladder is in an order in which no class is shadowed by one that it inherits from: every class gets the labels
      meant for it, and any other the catch-all, unless its error number tells of a reset. */
  lemma NoClassIsShadowed(e: Exn, c: Class)
    requires forall d :: d in e.classes <==> d == c || Inherits(c, d)
    requires !e.gaiError && !e.econnreset && c != CancelledError && c != BaseException
    ensures ClassifyException(e) == if MeantFor(c).Some? then MeantFor(c).value else (NetworkError, OtherError)
  {
    hide IsInstance, IsInstanceOfAny, Inherits, ClassifyException, MeantFor;
    InstanceOfClass(e, c);
    TimeoutsInherit(c);
    ConnectorsInherit(c);
    OthersInherit(c);
    AnyOfPair(e, ServerTimeoutError, TimeoutError);
    AnyOfThree(e, ClientConnectorSSLError, ClientConnectorCertificateError, ClientSSLError);
    ByInstances(e);
    ByClass(c);
  }

  /** The ladder, with each rung's classes spelled out. */
  lemma ByInstances(e: Exn)
    requires !e.gaiError && !e.econnreset && !IsInstance(e, CancelledError)
    ensures var tls := IsInstanceOfAny(e, [ClientConnectorSSLError, ClientConnectorCertificateError, ClientSSLError]);
            ClassifyException(e) == LabelsFor(
              IsInstance(e, ConnectionTimeoutError), IsInstanceOfAny(e, [ServerTimeoutError, TimeoutError]), tls,
              IsInstance(e, ClientConnectorDNSError), IsInstance(e, ClientConnectorError),
              IsInstance(e, ServerDisconnectedError), IsInstance(e, ConnectionResetError), IsInstance(e, ClientPayloadError))
  {
    hide IsInstance, IsInstanceOfAny;
  }

  function LabelsFor(connectTimeout: bool, timeout: bool, tls: bool, dns: bool, connector: bool, disconnected: bool,
                     reset: bool, payload: bool): (OutcomeLabel, ErrorLabel)
  {
    if connectTimeout then (Timeout, ConnectError)
    else if timeout then (Timeout, ReadTimeout)
    else if tls then (NetworkError, TlsError)
    else if dns then (NetworkError, DnsError)
    else if connector then (NetworkError, ConnectError)
    else if disconnected then (NetworkError, ServerDisconnected)
    else if reset then (NetworkError, ConnectionReset)
    else if payload then (NetworkError, PayloadError)
    else (NetworkError, OtherError)
  }

  lemma ByClass(c: Class)
    ensures var tls := c == ClientConnectorSSLError || c == ClientConnectorCertificateError || c == ClientSSLError;
            var dns := c == ClientConnectorDNSError;
            (if MeantFor(c).Some? then MeantFor(c).value else (NetworkError, OtherError)) == LabelsFor(
              c == ConnectionTimeoutError,
              c == ConnectionTimeoutError || c == ServerTimeoutError || c == TimeoutError, tls, dns,
              tls || dns || c == ClientConnectorError,
              c == ServerDisconnectedError, c == ConnectionResetError, c == ClientPayloadError)
  {
  }

  lemma InstanceOfClass(e: Exn, c: Class)
    requires forall d :: d in e.classes <==> d == c || Inherits(c, d)
    ensures forall d :: IsInstance(e, d) <==> d == BaseException || d == c || Inherits(c, d)
  {
  }

  lemma TimeoutsInherit(c: Class)
    ensures !Inherits(c, ConnectionTimeoutError)
    ensures Inherits(c, ServerTimeoutError) <==> c == ConnectionTimeoutError
    ensures Inherits(c, TimeoutError) <==> c == ConnectionTimeoutError || c == ServerTimeoutError
  {
  }

  lemma ConnectorsInherit(c: Class)
    ensures !Inherits(c, ClientConnectorSSLError) && !Inherits(c, ClientConnectorCertificateError)
    ensures !Inherits(c, ClientConnectorDNSError)
    ensures Inherits(c, ClientSSLError) <==> c == ClientConnectorSSLError || c == ClientConnectorCertificateError
    ensures Inherits(c, ClientConnectorError) <==>
              || c == ClientConnectorSSLError || c == ClientConnectorCertificateError || c == ClientSSLError
              || c == ClientConnectorDNSError
  {
  }

  lemma OthersInherit(c: Class)
    ensures !Inherits(c, CancelledError) && !Inherits(c, ServerDisconnectedError)
    ensures !Inherits(c, ConnectionResetError) && !Inherits(c, ClientPayloadError)
  {
  }

  /** `a or b` on two optional integers. */
  function Or(a: Option<int>, b: Option<int>): Option<int> {
    if a.Some? && a.value != 0 then a else b
  }

  /** _classify_failure: (status, outcome, error_type) of a failed attempt. */
  function ClassifyFailure(e: Exn, chosen: Option<int>): (r: (StatusLabel, OutcomeLabel, ErrorLabel))
    ensures r.1 == Cancelled <==> IsInstance(e, CancelledError)
    ensures r.1 == Response <==> !IsInstance(e, CancelledError) && (chosen.Some? || Or(e.status, e.statusCode).Some?)
    ensures r.1 == Response ==> r.2 == InvalidResponse
    ensures r.2 == NoError <==> r.1 == Cancelled
  {
    if IsInstance(e, CancelledError) then
      var (outcome, error) := ClassifyException(e);
      (NoStatus, outcome, error)
    else
      var known := if chosen.Some? then chosen else Or(e.status, e.statusCode);
      if known.Some? then (Code(known.value), Response, InvalidResponse)
      else
        var (outcome, error) := ClassifyException(e);
        (NoStatus, outcome, error)
  }

  /** The status a failure is reported with: that of the handler that ran, else the one the exception carries, unless it is
      zero, else its status code; and none when it is a cancellation or carries neither, and then it is diagnosed as an
      exception. */
  lemma FailureStatus(e: Exn, chosen: Option<int>, status: int)
    ensures ClassifyFailure(e, chosen).0 == Code(status)
       <==> && !IsInstance(e, CancelledError)
            && (chosen == Some(status)
                || (chosen.None? && e.status == Some(status) && status != 0)
                || (chosen.None? && (e.status.None? || e.status == Some(0)) && e.statusCode == Some(status)))
    ensures var r := ClassifyFailure(e, chosen);
            !r.0.Code? ==> r == (NoStatus, ClassifyException(e).0, ClassifyException(e).1)
  {
    hide ClassifyException;
  }

  /** A response for want of a handler is reported with its own status. */
  lemma UnhandledStatusIsReported(status: int)
    requires status != 0
    ensures ClassifyFailure(UnhandledStatusError(status), None) == (Code(status), Response, InvalidResponse)
  {
    hide ClassifyException;
  }
}
