/** Sequences of registrations applied to a processor registry, compared with
    reference definitions that read the answer straight off the history:
    the last registration of a code wins, the first non-null default sticks,
    and the last executor registered is the one in use. */
module RegistryHistory {
  import opened Wrappers
  import opened ProcessorManager

  /** One call on the manager's registration interface. */
  datatype Op =
    | RegisterProc(code: CommandCode, processor: Option<Processor>)
    | RegisterDefault(processor: Option<Processor>)
    | RegisterExecutor(executor: Option<Executor>)

  /** The outcome of one call: the new state, or the error it raised. */
  function Step(r: Registry, op: Op): Result<Registry, Error>
  {
    match op
    case RegisterProc(c, p) => RegisterProcessor(r, c, p)
    case RegisterDefault(p) => RegisterDefaultProcessor(r, p)
    case RegisterExecutor(e) => Success(RegisterDefaultExecutor(r, e))
  }

  /** The state after one call; a call that throws leaves the state as it was. */
  function Apply(r: Registry, op: Op): Registry
  {
    match Step(r, op)
    case Success(r') => r'
    case Failure(_) => r
  }

  /** The state after a whole history of calls, oldest first. Bindings are
      never removed and a default, once set, is never replaced. */
  function Run(r: Registry, ops: seq<Op>): (r': Registry)
    ensures r.bindings.Keys <= r'.bindings.Keys
    ensures r.defaultProcessor.Some? ==> r'.defaultProcessor == r.defaultProcessor
    decreases |ops|
  {
    if |ops| == 0 then r else Apply(Run(r, ops[..|ops| - 1]), ops[|ops| - 1])
  }

  /** Reference: the processor of the most recent non-null registration of `c`. */
  function LastRegistered(ops: seq<Op>, c: CommandCode): Option<Processor>
    decreases |ops|
  {
    if |ops| == 0 then None
    else
      var op := ops[|ops| - 1];
      if op.RegisterProc? && op.code == c && op.processor.Some? then op.processor
      else LastRegistered(ops[..|ops| - 1], c)
  }

  /** Reference: the first non-null default processor offered, scanning from the oldest call. */
  function FirstDefault(ops: seq<Op>): Option<Processor>
    decreases |ops|
  {
    if |ops| == 0 then None
    else if ops[0].RegisterDefault? && ops[0].processor.Some? then ops[0].processor
    else FirstDefault(ops[1..])
  }

  /** Reference: the executor named by the most recent executor registration, if any. */
  function LastExecutor(initial: Option<Executor>, ops: seq<Op>): Option<Executor>
    decreases |ops|
  {
    if |ops| == 0 then initial
    else if ops[|ops| - 1].RegisterExecutor? then ops[|ops| - 1].executor
    else LastExecutor(initial, ops[..|ops| - 1])
  }

  /** The default processor in effect after `ops`: the one already set, else the first non-null one offered. */
  function EffectiveDefault(r: Registry, ops: seq<Op>): Option<Processor>
  {
    if r.defaultProcessor.Some? then r.defaultProcessor else FirstDefault(ops)
  }

  /** Appending one call to a history extends its first non-null default only if it had none. */
  lemma {:induction false} FirstDefaultSnoc(ops: seq<Op>, op: Op)
    ensures FirstDefault(ops + [op]) ==
      if FirstDefault(ops).Some? then FirstDefault(ops)
      else if op.RegisterDefault? then op.processor
      else None
    decreases |ops|
  {
    if |ops| == 0 {
      assert ops + [op] == [op];
    } else {
      assert (ops + [op])[0] == ops[0];
      assert (ops + [op])[1..] == ops[1..] + [op];
      FirstDefaultSnoc(ops[1..], op);
    }
  }

  /** The default processor after a history is the first non-null one ever offered
      (or the one set before it began): later default registrations all fail. */
  lemma {:induction false} RunDefault(r: Registry, ops: seq<Op>)
    ensures Run(r, ops).defaultProcessor == EffectiveDefault(r, ops)
    decreases |ops|
  {
    if |ops| > 0 {
      var init, last := ops[..|ops| - 1], ops[|ops| - 1];
      assert ops == init + [last];
      RunDefault(r, init);
      FirstDefaultSnoc(init, last);
    }
  }

  /** After a history, `c` is bound exactly when it was bound before or was registered with a processor. */
  lemma {:induction false} RunBindings(r: Registry, ops: seq<Op>, c: CommandCode)
    ensures c in Run(r, ops).bindings <==> c in r.bindings || LastRegistered(ops, c).Some?
    ensures LastRegistered(ops, c).Some? ==> Run(r, ops).bindings[c] == LastRegistered(ops, c).value
    ensures LastRegistered(ops, c).None? && c in r.bindings ==> Run(r, ops).bindings[c] == r.bindings[c]
    decreases |ops|
  {
    if |ops| > 0 {
      RunBindings(r, ops[..|ops| - 1], c);
    }
  }

  /** What a lookup returns after any history: the last registration of the
      code, else its binding from before, else the effective default. */
  lemma {:induction false} RunLookup(r: Registry, ops: seq<Op>, c: CommandCode)
    ensures GetProcessor(Run(r, ops), c) ==
      if LastRegistered(ops, c).Some? then LastRegistered(ops, c)
      else if c in r.bindings then Some(r.bindings[c])
      else EffectiveDefault(r, ops)
  {
    RunBindings(r, ops, c);
    RunDefault(r, ops);
  }

  /** The executor in use after a history is the last one registered, or the initial one. */
  lemma {:induction false} RunExecutor(r: Registry, ops: seq<Op>)
    ensures GetDefaultExecutor(Run(r, ops)) == LastExecutor(r.defaultExecutor, ops)
    decreases |ops|
  {
    if |ops| > 0 {
      RunExecutor(r, ops[..|ops| - 1]);
    }
  }

  /** A default registration after any history fails exactly when a non-null
      default has already been set, however many calls came before. */
  lemma {:induction false} DefaultRegistrationFails(r: Registry, ops: seq<Op>, p: Option<Processor>)
    ensures Step(Run(r, ops), RegisterDefault(p)).Failure? <==> EffectiveDefault(r, ops).Some?
  {
    RunDefault(r, ops);
  }
}
