/** The command records the factory builds: requests, responses, their status
    vocabulary, and the plain-record stand-ins for Java throwables, payload
    objects and socket addresses. */
module Commands {
  import opened Wrappers

  /** An unsigned byte, the width of the serializer code. */
  newtype byte = x: int | 0 <= x < 256

  /** The terminal outcome a response reports. */
  datatype ResponseStatus =
    | Success
    | Error
    | ServerException
    | Unknown
    | ServerThreadpoolBusy
    | ErrorComm
    | NoProcessor
    | Timeout
    | ClientSendError
    | ConnectionClosed

  /** The negotiated optional protocol features, as the set of enabled bit positions. */
  datatype ProtocolSwitch = ProtocolSwitch(enabled: set<nat>)

  /** A peer's socket address, opaque. */
  datatype Address = Address(host: string, port: nat)

  /** One frame of a Java stack trace. */
  datatype StackFrame = StackFrame(declaringClass: string, methodName: string, fileName: Option<string>, lineNumber: int)

  /** A Java throwable as a plain record: its runtime class name, its message
      (which may be null) and its stack trace. */
  datatype Throwable = Throwable(className: string, message: Option<string>, stackTrace: seq<StackFrame>)

  /** An arbitrary Java object carried as a payload: a throwable, or any other
      object, of which only the runtime class name is observable. */
  datatype JavaObject =
    | Thrown(throwable: Throwable)
    | Plain(className: string, instance: nat)

  /** The result of `getClass().getName()` on a payload. */
  function ClassName(o: JavaObject): string
  {
    match o
    case Thrown(t) => t.className
    case Plain(name, _) => name
  }

  /** Java's rendering of a possibly-null string inside a concatenation. */
  function JavaString(s: Option<string>): string
  {
    match s
    case None => "null"
    case Some(v) => v
  }

  /** The fields a request command is created with, beyond its payload:
      the assigned correlation id and the class's initial serializer and switch. */
  datatype Request = Request(
    id: int,
    serializer: byte,
    protocolSwitch: ProtocolSwitch,
    requestObject: Option<JavaObject>)

  /** Which Java class a response is an instance of. */
  datatype ResponseKind = RpcResponseCommand | ResponseCommand

  /** A response command. Every field a factory method does not assign is
      `None`: the initial value the command class gives it. */
  datatype Response = Response(
    kind: ResponseKind,
    id: Option<int>,
    serializer: Option<byte>,
    protocolSwitch: Option<ProtocolSwitch>,
    status: Option<ResponseStatus>,
    responseClass: Option<string>,
    responseObject: Option<JavaObject>,
    cause: Option<Throwable>,
    responseTimeMillis: Option<int>,
    responseHost: Option<Address>)

  /** A response of the given class with every field at its initial value. */
  function Blank(kind: ResponseKind): Response
  {
    Response(kind, None, None, None, None, None, None, None, None, None)
  }

  /** `resp` answers `req`: it carries the request's id, serializer and protocol
      switch, so the transport can pair and decode it. */
  predicate AnswersRequest(resp: Response, req: Request)
  {
    && resp.id == Some(req.id)
    && resp.serializer == Some(req.serializer)
    && resp.protocolSwitch == Some(req.protocolSwitch)
  }

  /** Neither a payload, a class descriptor nor a cause is attached. */
  predicate CarriesNoPayload(resp: Response)
  {
    resp.responseClass.None? && resp.responseObject.None? && resp.cause.None?
  }

  /** The client-side fields (arrival time and peer address) are unset. */
  predicate NoClientSideFields(resp: Response)
  {
    resp.responseTimeMillis.None? && resp.responseHost.None?
  }
}
