/** The processor registry: a binding from command code to processor, a one-shot
    default processor and a replaceable default executor. The registry is an
    immutable value and every operation returns the next state. */
module ProcessorManager {
  import opened Wrappers

  /** The protocol-level type tag of a command, compared by value. */
  datatype CommandCode = CommandCode(code: int)

  /** A remoting processor; only its runtime class name is observable here. */
  datatype Processor = Processor(className: string, instance: nat)

  /** The shared worker pool, treated as an opaque token. */
  datatype Executor = Executor(instance: nat)

  /** The state of one manager instance. */
  datatype Registry = Registry(
    bindings: map<CommandCode, Processor>,
    defaultProcessor: Option<Processor>,
    defaultExecutor: Option<Executor>)

  /** The exceptions a registration can raise. */
  datatype Error =
    | IllegalState(message: string)
    | NullPointer

  /** The text of the exception raised by a second default registration: the
      previous default's `Class.toString()`, that is "class " and its name. */
  function AlreadyRegisteredMessage(previous: Processor): string
  {
    "The defaultProcessor has already been registered: class " + previous.className
  }

  /** A fresh manager: no bindings, no default processor, and the thread pool
      built by the constructor as default executor. */
  function NewRegistry(pool: Executor): (r: Registry)
    ensures forall c :: GetProcessor(r, c) == None
    ensures GetDefaultExecutor(r) == Some(pool)
  {
    Registry(map[], None, Some(pool))
  }

  /** The processor that handles `c`: its own binding, otherwise the default
      processor, which may be absent. Lookup never fails. */
  function GetProcessor(r: Registry, c: CommandCode): (p: Option<Processor>)
    ensures c in r.bindings ==> p == Some(r.bindings[c])
    ensures c !in r.bindings ==> p == r.defaultProcessor
    ensures p.None? <==> c !in r.bindings && r.defaultProcessor.None?
  {
    if c in r.bindings then Some(r.bindings[c]) else r.defaultProcessor
  }

  /** Binds `c` to `p`, replacing any earlier binding (last write wins; an
      earlier binding is never an error). The concurrent map refuses a null
      processor with a NullPointerException, leaving the state unchanged. */
  function RegisterProcessor(r: Registry, c: CommandCode, p: Option<Processor>): (res: Result<Registry, Error>)
    ensures res.Success? <==> p.Some?
    ensures res.Failure? ==> res.error == NullPointer
    ensures res.Success? ==> GetProcessor(res.value, c) == p
    ensures res.Success? ==> forall c' :: c' != c ==> GetProcessor(res.value, c') == GetProcessor(r, c')
    ensures res.Success? ==> res.value.bindings.Keys == r.bindings.Keys + {c}
    ensures res.Success? ==> res.value.defaultProcessor == r.defaultProcessor
    ensures res.Success? ==> res.value.defaultExecutor == r.defaultExecutor
  {
    match p
    case None => Failure(NullPointer)
    case Some(q) => Success(r.(bindings := r.bindings[c := q]))
  }

  /** Sets the default processor while none is set; once one is set, every
      further call fails with IllegalState and changes nothing. The guard tests
      for null, so registering a null default leaves it open. */
  function RegisterDefaultProcessor(r: Registry, p: Option<Processor>): (res: Result<Registry, Error>)
    ensures res.Success? <==> r.defaultProcessor.None?
    ensures res.Success? ==> res.value.defaultProcessor == p
    ensures res.Success? ==> res.value.bindings == r.bindings
    ensures res.Success? ==> res.value.defaultExecutor == r.defaultExecutor
    ensures res.Failure? ==> res.error == IllegalState(AlreadyRegisteredMessage(r.defaultProcessor.value))
  {
    match r.defaultProcessor
    case None => Success(r.(defaultProcessor := p))
    case Some(previous) => Failure(IllegalState(AlreadyRegisteredMessage(previous)))
  }

  /** The current default executor (null once a caller has registered null). */
  function GetDefaultExecutor(r: Registry): Option<Executor>
  {
    r.defaultExecutor
  }

  /** Replaces the default executor outright; the old one is neither drained
      nor shut down, and nothing else changes. */
  function RegisterDefaultExecutor(r: Registry, e: Option<Executor>): (r': Registry)
    ensures GetDefaultExecutor(r') == e
    ensures forall c :: GetProcessor(r', c) == GetProcessor(r, c)
    ensures r'.bindings == r.bindings && r'.defaultProcessor == r.defaultProcessor
  {
    r.(defaultExecutor := e)
  }

  /** Registering twice is the same as registering the second executor only. */
  lemma RegisterDefaultExecutorLastWins(r: Registry, e1: Option<Executor>, e2: Option<Executor>)
    ensures RegisterDefaultExecutor(RegisterDefaultExecutor(r, e1), e2) == RegisterDefaultExecutor(r, e2)
  {
  }

  /** Re-registering a bound code succeeds, and the last binding is the one looked up. */
  lemma ReRegisterLastWins(r: Registry, c: CommandCode, p1: Processor, p2: Processor)
    ensures RegisterProcessor(r, c, Some(p1)).Success?
    ensures RegisterProcessor(RegisterProcessor(r, c, Some(p1)).value, c, Some(p2)).Success?
    ensures GetProcessor(RegisterProcessor(RegisterProcessor(r, c, Some(p1)).value, c, Some(p2)).value, c) == Some(p2)
  {
  }

  /** A second default registration fails and the first default stays in effect. */
  lemma DefaultProcessorOneShot(r: Registry, p1: Processor, p2: Option<Processor>)
    requires r.defaultProcessor.None?
    ensures RegisterDefaultProcessor(r, Some(p1)).Success?
    ensures RegisterDefaultProcessor(RegisterDefaultProcessor(r, Some(p1)).value, p2).Failure?
    ensures forall c :: c !in r.bindings ==> GetProcessor(RegisterDefaultProcessor(r, Some(p1)).value, c) == Some(p1)
  {
  }

  /** A null default keeps the guard open: a later non-null default still succeeds. */
  lemma NullDefaultKeepsGuardOpen(r: Registry, p: Processor)
    requires r.defaultProcessor.None?
    ensures RegisterDefaultProcessor(r, None) == Success(r)
    ensures RegisterDefaultProcessor(RegisterDefaultProcessor(r, None).value, Some(p)).Success?
  {
  }
}
