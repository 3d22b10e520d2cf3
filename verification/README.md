# Processor registry and RPC command factory of SOFA Bolt, in Dafny

This project models two sequential pieces of the dispatch layer of the SOFA Bolt
RPC transport and proves what each promises.

- **`ProcessorManager`** (`processor_manager.dfy`): the registry that maps a
  command code to the remoting processor handling it. It also holds a one-shot
  default processor and a replaceable default executor. The registry is an
  immutable `Registry` value: a `map<CommandCode, Processor>`, an
  `Option<Processor>` default and an `Option<Executor>` executor token. Every
  registration returns the next state, or the exception it raises as a `Result`.
- **`RegistryHistory`** (`registry_history.dfy`): whole histories of
  registrations run through the registry. They are compared with reference
  definitions read straight off the history: the last registration of a code
  wins, the first non-null default sticks for good, and the last executor
  registered is the one in use.
- **`Commands`** (`commands.dfy`): the request and response commands, the
  response statuses, and plain records standing in for Java throwables, payload
  objects and socket addresses. A response field that a factory method does not
  assign is `None`, meaning the command class's initial value.
- **`RpcCommandFactory`** (`rpc_command_factory.dfy`): one pure constructor per
  request outcome. The outcomes are success, server exception (with or without a
  cause), bare status, timeout, send failure and connection closed. Each
  contract says field by field which values are copied from the request, which
  status is set, how the server-exception message is composed, and which fields
  keep their initial values.
- **`Wrappers`** (`wrappers.dfy`): `Option` and `Result`.

Java `null` is `None` wherever the source passes a reference through without
dereferencing it. The current time, the peer address and the stack trace a new
exception captures are parameters.

## Model

| member | source | states |
|---|---|---|
| ProcessorManager.NewRegistry | src/main/java/com/alipay/remoting/ProcessorManager.java:60-64 | a new manager resolves every code to nothing and uses the pool built by the constructor as its default executor |
| ProcessorManager.GetProcessor | src/main/java/com/alipay/remoting/ProcessorManager.java:99-105 | lookup returns the code's own binding, otherwise the default processor; it is absent exactly when the code is unbound and no default is set; it never fails |
| ProcessorManager.RegisterProcessor | src/main/java/com/alipay/remoting/ProcessorManager.java:72-78 | a non-null processor is always accepted, even for a bound code, and afterwards the lookup of that code returns it; every other code's lookup, the default processor and the executor are unchanged; a null processor raises NullPointerException from the concurrent map |
| ProcessorManager.RegisterDefaultProcessor | src/main/java/com/alipay/remoting/ProcessorManager.java:85-91 | succeeds exactly while no default is set and then installs the given processor, leaving bindings and executor alone; otherwise raises IllegalState with the message naming the current default's class and changes nothing |
| ProcessorManager.RegisterDefaultExecutor | src/main/java/com/alipay/remoting/ProcessorManager.java:112-123 | afterwards the default executor read back is the one given; no binding or default processor changes |
| ProcessorManager.RegisterDefaultExecutorLastWins | src/main/java/com/alipay/remoting/ProcessorManager.java:121-123 | the executor can be replaced any number of times; two replacements equal the second alone |
| ProcessorManager.ReRegisterLastWins | src/main/java/com/alipay/remoting/ProcessorManager.java:72-78 | registering the same code twice succeeds both times and the lookup returns the second processor |
| ProcessorManager.DefaultProcessorOneShot | src/main/java/com/alipay/remoting/ProcessorManager.java:85-91 | the first default registration succeeds and unbound codes then resolve to it; any second one fails |
| ProcessorManager.NullDefaultKeepsGuardOpen | src/main/java/com/alipay/remoting/ProcessorManager.java:86-87 | a null default leaves the state as it was, so a later non-null default still succeeds |
| RegistryHistory.Run | src/main/java/com/alipay/remoting/ProcessorManager.java:72-91 | across any history no binding is ever removed and a default, once set, is never replaced |
| RegistryHistory.RunBindings | src/main/java/com/alipay/remoting/ProcessorManager.java:72-78 | after any history a code is bound exactly when it was bound before or was registered since, and it is bound to its most recent registration |
| RegistryHistory.RunDefault | src/main/java/com/alipay/remoting/ProcessorManager.java:85-91 | after any history the default processor is the one set before it began, else the first non-null default offered |
| RegistryHistory.RunLookup | src/main/java/com/alipay/remoting/ProcessorManager.java:99-105 | after any history a lookup returns the code's last registration, else its earlier binding, else the effective default |
| RegistryHistory.RunExecutor | src/main/java/com/alipay/remoting/ProcessorManager.java:121-123 | after any history the default executor is the last one registered, else the initial one |
| RegistryHistory.DefaultRegistrationFails | src/main/java/com/alipay/remoting/ProcessorManager.java:86-89 | after any history a default registration fails exactly when a non-null default is already in effect |
| RpcCommandFactory.CreateRequestCommand | src/main/java/com/alipay/remoting/rpc/RpcCommandFactory.java:37-40 | the request carries the given payload and the id assigned to it |
| RpcCommandFactory.CreateResponse | src/main/java/com/alipay/remoting/rpc/RpcCommandFactory.java:42-54 | the success response answers its request (same id, serializer and protocol switch), has status SUCCESS, carries the payload, and has a response class exactly when there is a payload, namely the payload's class name |
| RpcCommandFactory.ResponseAnswersCreatedRequest | src/main/java/com/alipay/remoting/rpc/RpcCommandFactory.java:37-53 | a response to a request built by the factory carries that request's correlation id, serializer and protocol switch |
| RpcCommandFactory.ComposeMessage | src/main/java/com/alipay/remoting/rpc/RpcCommandFactory.java:69 | the composed message starts with the cause's class name and ": ", ends with the additional error message ("null" for null), and has exactly the length of its parts |
| RpcCommandFactory.ComposedMessageInOrder | src/main/java/com/alipay/remoting/rpc/RpcCommandFactory.java:69 | the composed message contains the cause's class name, the cause's message and the additional error message, in that order and without overlap |
| RpcCommandFactory.ServerError | src/main/java/com/alipay/remoting/rpc/RpcCommandFactory.java:64-71 | the server exception has the server-exception class; without a cause its message is exactly errMsg, with a cause it is the composed message and it carries the cause's stack trace |
| RpcCommandFactory.CreateExceptionResponse | src/main/java/com/alipay/remoting/rpc/RpcCommandFactory.java:61-76 | the response has the given id, status SERVER_EXCEPTION, the server exception as payload and its class name as response class; nothing else is set |
| RpcCommandFactory.CreateMessageExceptionResponse | src/main/java/com/alipay/remoting/rpc/RpcCommandFactory.java:56-59 | the overload without a cause equals the three-argument form with a null cause, so the exception's message is exactly errMsg |
| RpcCommandFactory.CreateStatusResponse | src/main/java/com/alipay/remoting/rpc/RpcCommandFactory.java:78-84 | only the id and the given status are set; serializer, protocol switch, response class, payload, cause, time and host keep their initial values |
| RpcCommandFactory.CreateTimeoutResponse | src/main/java/com/alipay/remoting/rpc/RpcCommandFactory.java:86-93 | status TIMEOUT, the peer address given, the clock reading given; no id, payload or cause |
| RpcCommandFactory.CreateSendFailedResponse | src/main/java/com/alipay/remoting/rpc/RpcCommandFactory.java:95-103 | status CLIENT_SEND_ERROR, the peer address and clock reading given, and the throwable attached verbatim as cause |
| RpcCommandFactory.CreateConnectionClosedResponse | src/main/java/com/alipay/remoting/rpc/RpcCommandFactory.java:105-112 | status CONNECTION_CLOSED, the peer address and clock reading given; no cause and no payload |
| RpcCommandFactory.ConnectionClosedIgnoresMessage | src/main/java/com/alipay/remoting/rpc/RpcCommandFactory.java:106-111 | the connection-closed message argument has no effect on the response |
| RpcCommandFactory.TransportFailuresDifferOnlyInStatus | src/main/java/com/alipay/remoting/rpc/RpcCommandFactory.java:87-112 | timeout, connection-closed and cause-less send-failure responses are identical except for their status |

## Left out

- The default `ThreadPoolExecutor`, its sizing from `SystemProperties` and its thread factory (ProcessorManager.java lines 52-63) are JVM concurrency machinery. The executor is an opaque token given to `NewRegistry`.
- Concurrency: the `ConcurrentHashMap` atomicity and any guarantee about racing registrations. The model is sequential.
- Logging of a re-registration (ProcessorManager.java lines 73-76). The legacy `contains` call there tests map values rather than keys, and it only decides whether a warning is logged. The warning branch could only be taken if some registered processor were equal to the command code, and then line 75 could also throw. In the model, processors and command codes are different types, so that branch never runs and the warning is not modelled.
- A null command code, which makes the concurrent map throw. `CommandCode` is a value type, so the model has no null codes.
- Java reflection and the system clock: class names are fields of the records, and the current time is the `now` parameter.
- The command classes' constructors are not part of this model. `RpcResponseCommand(id, obj)` is taken to set only the id and the response object. The no-argument constructors are taken to leave every field at its initial value, which the model does not fix and writes as `None`. The `RpcRequestCommand` constructor's id generator and initial serializer and protocol switch become parameters of `CreateRequestCommand`.
- The server exception's own stack trace, when there is no cause, is whatever the JVM captures where it is built. It is the `here` parameter.
- `ResponseStatus` holds only the statuses this layer names. The enum's other members and their wire codes are not part of this model.
- Encoding of commands, `InetSocketAddress` (an opaque `Address` record) and `Throwable` (a record of class name, message and stack trace) are outside the model. So is exception chaining beyond the stack trace.
