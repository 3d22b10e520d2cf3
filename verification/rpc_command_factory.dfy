/** The command factory of the RPC protocol: one pure constructor per terminal
    outcome of a request. The clock reading, the peer address and the stack
    trace a new exception captures are inputs rather than ambient state. */
module RpcCommandFactory {
  import opened Wrappers
  import opened Commands

  /** The runtime class of the exception that wraps a server-side failure. */
  const ServerExceptionClass: string := "com.alipay.remoting.rpc.exception.RpcServerException"

  /** The text that separates a cause's message from the additional error message. */
  const AdditionalErrMsgSeparator: string := ". AdditionalErrMsg: "

  /** `part` occurs in `m` starting at index `i`. */
  predicate OccursAt(m: string, part: string, i: int)
  {
    0 <= i && i + |part| <= |m| && m[i..i + |part|] == part
  }

  /** `a`, `b` and `c` occur in `m` in that order, without overlapping. */
  ghost predicate InOrder(m: string, a: string, b: string, c: string)
  {
    exists i, j, k :: OccursAt(m, a, i) && OccursAt(m, b, j) && OccursAt(m, c, k)
      && i + |a| <= j && j + |b| <= k
  }

  /** Wraps an application payload into a request command. The id comes from
      the request class's id generator and the serializer and protocol switch
      are the class's initial values; all three are supplied here. */
  function CreateRequestCommand(requestObject: Option<JavaObject>, id: int, serializer: byte, protocolSwitch: ProtocolSwitch): (req: Request)
    ensures req.requestObject == requestObject
    ensures req.id == id
  {
    Request(id, serializer, protocolSwitch, requestObject)
  }

  /** The success response: it answers `req` (same id, serializer and protocol
      switch), has status SUCCESS, carries the payload, and names the payload's
      class exactly when there is a payload. */
  function CreateResponse(responseObject: Option<JavaObject>, req: Request): (r: Response)
    ensures r.kind == RpcResponseCommand
    ensures AnswersRequest(r, req)
    ensures r.status == Some(ResponseStatus.Success)
    ensures r.responseObject == responseObject
    ensures r.responseClass.Some? <==> responseObject.Some?
    ensures responseObject.Some? ==> r.responseClass == Some(ClassName(responseObject.value))
    ensures r.cause.None? && NoClientSideFields(r)
  {
    var resp := Blank(RpcResponseCommand).(id := Some(req.id), responseObject := responseObject);
    var resp := resp.(responseClass := if responseObject.Some? then Some(ClassName(responseObject.value)) else None);
    resp.(serializer := Some(req.serializer), protocolSwitch := Some(req.protocolSwitch), status := Some(ResponseStatus.Success))
  }

  /** The message of a server exception wrapping cause `t`: the cause's class
      name, its message and the additional error message, in that order. */
  function ComposeMessage(t: Throwable, errMsg: Option<string>): (m: string)
    ensures |m| == |t.className| + 2 + |JavaString(t.message)| + |AdditionalErrMsgSeparator| + |JavaString(errMsg)|
    ensures m[..|t.className| + 2] == t.className + ": "
    ensures m[|m| - |JavaString(errMsg)|..] == JavaString(errMsg)
  {
    t.className + ": " + JavaString(t.message) + AdditionalErrMsgSeparator + JavaString(errMsg)
  }

  /** The server exception built for a failure: without a cause it carries just
      `errMsg` and the stack trace captured where it is built (`here`); with a
      cause it carries the composed message and the cause's stack trace. */
  function ServerError(t: Option<Throwable>, errMsg: Option<string>, here: seq<StackFrame>): (e: Throwable)
    ensures e.className == ServerExceptionClass
    ensures t.None? ==> e.message == errMsg && e.stackTrace == here
    ensures t.Some? ==> e.message == Some(ComposeMessage(t.value, errMsg)) && e.stackTrace == t.value.stackTrace
  {
    match t
    case None => Throwable(ServerExceptionClass, errMsg, here)
    case Some(cause) => Throwable(ServerExceptionClass, Some(ComposeMessage(cause, errMsg)), cause.stackTrace)
  }

  /** The server-exception response: the given id, status SERVER_EXCEPTION, the
      server exception as payload and its class as the response class. Nothing
      is copied from a request, and no cause or client-side field is set. */
  function CreateExceptionResponse(id: int, t: Option<Throwable>, errMsg: Option<string>, here: seq<StackFrame>): (r: Response)
    ensures r.kind == RpcResponseCommand
    ensures r.id == Some(id)
    ensures r.status == Some(ResponseStatus.ServerException)
    ensures r.responseClass == Some(ServerExceptionClass)
    ensures r.responseObject == Some(Thrown(ServerError(t, errMsg, here)))
    ensures r.responseObject.Some? && ClassName(r.responseObject.value) == r.responseClass.value
    ensures r.serializer.None? && r.protocolSwitch.None? && r.cause.None? && NoClientSideFields(r)
  {
    var e := ServerError(t, errMsg, here);
    var resp := Blank(RpcResponseCommand).(id := Some(id), responseObject := Some(Thrown(e)));
    resp.(responseClass := Some(e.className), status := Some(ResponseStatus.ServerException))
  }

  /** The overload without a cause: the same response as passing no cause. */
  function CreateMessageExceptionResponse(id: int, errMsg: Option<string>, here: seq<StackFrame>): (r: Response)
    ensures r == CreateExceptionResponse(id, None, errMsg, here)
    ensures r.responseObject == Some(Thrown(Throwable(ServerExceptionClass, errMsg, here)))
  {
    CreateExceptionResponse(id, None, errMsg, here)
  }

  /** A categorical failure response: only the id and the given status are set. */
  function CreateStatusResponse(id: int, status: Option<ResponseStatus>): (r: Response)
    ensures r.kind == RpcResponseCommand
    ensures r.id == Some(id) && r.status == status
    ensures r.serializer.None? && r.protocolSwitch.None?
    ensures CarriesNoPayload(r) && NoClientSideFields(r)
  {
    Blank(RpcResponseCommand).(id := Some(id), status := status)
  }

  /** A response synthesized on the client for an outcome observed by the
      transport: the given status, arrival time and peer, and nothing else. */
  function TransportResponse(status: ResponseStatus, address: Option<Address>, now: int): Response
  {
    Blank(ResponseCommand).(status := Some(status), responseTimeMillis := Some(now), responseHost := address)
  }

  /** The timeout response: status TIMEOUT, the current time and the peer address; no id, payload or cause. */
  function CreateTimeoutResponse(address: Option<Address>, now: int): (r: Response)
    ensures r.kind == ResponseCommand
    ensures r.status == Some(ResponseStatus.Timeout)
    ensures r.responseHost == address && r.responseTimeMillis == Some(now)
    ensures r.id.None? && r.serializer.None? && r.protocolSwitch.None? && CarriesNoPayload(r)
  {
    TransportResponse(ResponseStatus.Timeout, address, now)
  }

  /** The send-failure response: status CLIENT_SEND_ERROR, the current time,
      the peer address, and the throwable attached verbatim as the cause. */
  function CreateSendFailedResponse(address: Option<Address>, throwable: Option<Throwable>, now: int): (r: Response)
    ensures r.kind == ResponseCommand
    ensures r.status == Some(ResponseStatus.ClientSendError)
    ensures r.responseHost == address && r.responseTimeMillis == Some(now)
    ensures r.cause == throwable
    ensures r.id.None? && r.serializer.None? && r.protocolSwitch.None?
    ensures r.responseClass.None? && r.responseObject.None?
  {
    TransportResponse(ResponseStatus.ClientSendError, address, now).(cause := throwable)
  }

  /** The connection-closed response: status CONNECTION_CLOSED, the current time
      and the peer address. The message is not stored and no cause is attached. */
  function CreateConnectionClosedResponse(address: Option<Address>, message: Option<string>, now: int): (r: Response)
    ensures r.kind == ResponseCommand
    ensures r.status == Some(ResponseStatus.ConnectionClosed)
    ensures r.responseHost == address && r.responseTimeMillis == Some(now)
    ensures r.id.None? && r.serializer.None? && r.protocolSwitch.None? && CarriesNoPayload(r)
  {
    TransportResponse(ResponseStatus.ConnectionClosed, address, now)
  }

  /** The composed message names the cause's class, then the cause's message,
      then the additional error message. */
  lemma ComposedMessageInOrder(t: Throwable, errMsg: Option<string>)
    ensures InOrder(ComposeMessage(t, errMsg), t.className, JavaString(t.message), JavaString(errMsg))
  {
    var m := ComposeMessage(t, errMsg);
    var a, b, c := t.className, JavaString(t.message), JavaString(errMsg);
    var j := |a| + 2;
    var k := j + |b| + |AdditionalErrMsgSeparator|;
    assert m == a + ": " + b + AdditionalErrMsgSeparator + c;
    assert OccursAt(m, a, 0);
    assert OccursAt(m, b, j);
    assert OccursAt(m, c, k);
  }

  /** A response built for a request created by this factory carries that
      request's correlation id, serializer and protocol switch. */
  lemma ResponseAnswersCreatedRequest(payload: Option<JavaObject>, id: int, serializer: byte, protocolSwitch: ProtocolSwitch, result: Option<JavaObject>)
    ensures CreateResponse(result, CreateRequestCommand(payload, id, serializer, protocolSwitch)).id == Some(id)
    ensures CreateResponse(result, CreateRequestCommand(payload, id, serializer, protocolSwitch)).serializer == Some(serializer)
    ensures CreateResponse(result, CreateRequestCommand(payload, id, serializer, protocolSwitch)).protocolSwitch == Some(protocolSwitch)
  {
  }

  /** The connection-closed message has no effect on the response. */
  lemma ConnectionClosedIgnoresMessage(address: Option<Address>, m1: Option<string>, m2: Option<string>, now: int)
    ensures CreateConnectionClosedResponse(address, m1, now) == CreateConnectionClosedResponse(address, m2, now)
  {
  }

  /** The three transport-observed failures differ from each other only in
      status, except that a send failure also carries its cause. */
  lemma TransportFailuresDifferOnlyInStatus(address: Option<Address>, now: int, m: Option<string>)
    ensures CreateConnectionClosedResponse(address, m, now) == CreateTimeoutResponse(address, now).(status := Some(ResponseStatus.ConnectionClosed))
    ensures CreateSendFailedResponse(address, None, now) == CreateTimeoutResponse(address, now).(status := Some(ResponseStatus.ClientSendError))
  {
  }
}
