/**
 * The provisioning sequence as data: a list of steps, each of which either
 * resolves a registry entry (reuse a truthy entry, otherwise deploy and
 * record), redeploys one unconditionally, or sends a transaction to a
 * contract already in the registry. `Exec` is the reference semantics the
 * deployment method is proved against.
 */
module Pipeline {
  import opened Wrappers
  import opened Evm
  import opened Presets
  import opened Registry

  datatype DeployError =
    | UnsupportedGranularity(binStep: int)
    | MissingRegistryEntry(key: string)
    | RemoteCallRejected(call: Call)

  /** A step argument: a constant, or the address recorded under a registry key. */
  datatype Operand = Lit(arg: Arg) | Ref(key: string)

  datatype Step =
    | Resolve(key: string, contract: string, args: seq<Operand>)
    | Redeploy(key: string, contract: string, args: seq<Operand>)
    | Transact(target: string, fn: string, args: seq<Operand>)
    | RegisterPreset(target: string, binStep: int)

  datatype State = State(reg: Registry, chain: ChainState)

  /** Where a run stands: still going, or stopped by an error (with the
      environment as the error left it). */
  datatype Progress = Done(state: State) | Aborted(error: DeployError, chain: ChainState)

  function ChainOf(p: Progress): ChainState
  {
    if p.Done? then p.state.chain else p.chain
  }

  function RefsOf(ops: seq<Operand>): set<string>
  {
    set i | 0 <= i < |ops| && ops[i].Ref? :: ops[i].key
  }

  /** Registry keys a step reads. */
  function Needs(step: Step): set<string>
  {
    match step
    case Resolve(_, _, args) => RefsOf(args)
    case Redeploy(_, _, args) => RefsOf(args)
    case Transact(target, _, args) => {target} + RefsOf(args)
    case RegisterPreset(target, _) => {target}
  }

  /** Registry key a step writes. */
  function Produces(step: Step): set<string>
  {
    if step.Resolve? || step.Redeploy? then {step.key} else {}
  }

  function ProducedKeys(steps: seq<Step>): set<string>
  {
    if steps == [] then {} else Produces(steps[0]) + ProducedKeys(steps[1..])
  }

  function RedeployKeys(steps: seq<Step>): set<string>
  {
    if steps == [] then {}
    else (if steps[0].Redeploy? then {steps[0].key} else {}) + RedeployKeys(steps[1..])
  }

  /** Every key a step reads is in `avail` or written by an earlier step. */
  predicate WellOrdered(steps: seq<Step>, avail: set<string>)
  {
    steps == [] || (Needs(steps[0]) <= avail && WellOrdered(steps[1..], avail + Produces(steps[0])))
  }

  /** The only steps that deploy `contract` resolve it under `key`. */
  predicate ResolvedOnlyAs(steps: seq<Step>, contract: string, key: string)
  {
    forall i :: 0 <= i < |steps| && (steps[i].Resolve? || steps[i].Redeploy?) && steps[i].contract == contract ==>
      steps[i].Resolve? && steps[i].key == key
  }

  /** The arguments of a factory's setPreset call: every field of the preset
      except the sample lifetime. */
  function PresetArgs(p: FactoryPreset): seq<Arg>
  {
    [UintArg(p.binStep), UintArg(p.baseFactor), UintArg(p.filterPeriod), UintArg(p.decayPeriod),
     UintArg(p.reductionFactor), UintArg(p.variableFeeControl), UintArg(p.protocolShare),
     UintArg(p.maxVolatilityAccumulated), BoolArg(p.isOpen)]
  }

  /** Every reference among `ops` names a key of `reg`. */
  predicate Bound(ops: seq<Operand>, reg: Registry)
  {
    forall i :: 0 <= i < |ops| && ops[i].Ref? ==> ops[i].key in reg
  }

  lemma BoundIffRefsPresent(ops: seq<Operand>, reg: Registry)
    ensures Bound(ops, reg) <==> RefsOf(ops) <= reg.Keys
  {
    if !Bound(ops, reg) {
      var i :| 0 <= i < |ops| && ops[i].Ref? && ops[i].key !in reg;
      assert ops[i].key in RefsOf(ops);
    }
  }

  /** Replaces each reference by the address it names; the first reference
      to a missing key is an error. */
  function Eval(ops: seq<Operand>, reg: Registry): (r: Result<seq<Arg>, DeployError>)
    ensures r.Success? <==> Bound(ops, reg)
    ensures r.Success? ==> |r.value| == |ops|
    ensures r.Success? ==> forall i :: 0 <= i < |ops| ==>
      r.value[i] == if ops[i].Lit? then ops[i].arg else AddressArg(reg[ops[i].key])
    ensures r.Failure? ==> r.error.MissingRegistryEntry? && r.error.key in RefsOf(ops) - reg.Keys
  {
    if ops == [] then Success([])
    else if ops[0].Ref? && ops[0].key !in reg then
      assert ops[0].key in RefsOf(ops);
      Failure(MissingRegistryEntry(ops[0].key))
    else
      var head := if ops[0].Lit? then ops[0].arg else AddressArg(reg[ops[0].key]);
      match Eval(ops[1..], reg)
      case Failure(e) =>
        assert e.key in RefsOf(ops) by {
          var i :| 0 <= i < |ops[1..]| && ops[1..][i].Ref? && ops[1..][i].key == e.key;
          assert ops[i + 1] == ops[1..][i];
        }
        Failure(e)
      case Success(rest) =>
        assert forall i :: 1 <= i < |ops| ==> ops[i] == ops[1..][i - 1];
        Success([head] + rest)
  }

  /** `Eval` of operands whose values are known one by one. */
  lemma EvalTo(ops: seq<Operand>, reg: Registry, vs: seq<Arg>)
    requires |vs| == |ops|
    requires forall i :: 0 <= i < |ops| ==>
      if ops[i].Lit? then vs[i] == ops[i].arg else ops[i].key in reg && vs[i] == AddressArg(reg[ops[i].key])
    ensures Eval(ops, reg) == Success(vs)
  {
    assert Bound(ops, reg);
    assert Eval(ops, reg).value == vs;
  }

  /** Deploys `contract` and records its address under `key`. */
  function Deployed(key: string, contract: string, args: seq<Operand>, s: State): Progress
  {
    match Eval(args, s.reg)
    case Failure(e) => Aborted(e, s.chain)
    case Success(vs) =>
      var call := Create(contract, vs);
      if Accepts(s.chain) then Done(State(s.reg[key := AddressOf(s.chain.nonce)], Submitted(s.chain, call)))
      else Aborted(RemoteCallRejected(call), Submitted(s.chain, call))
  }

  /** Calls `fn` on the contract recorded under `target`. */
  function Called(target: string, fn: string, args: seq<Arg>, s: State): Progress
  {
    if target !in s.reg then Aborted(MissingRegistryEntry(target), s.chain)
    else
      var call := Invoke(s.reg[target], fn, args);
      if Accepts(s.chain) then Done(State(s.reg, Submitted(s.chain, call)))
      else Aborted(RemoteCallRejected(call), Submitted(s.chain, call))
  }

  /** One step. */
  function Apply(step: Step, s: State): Progress
  {
    match step
    case Resolve(key, contract, args) =>
      if Truthy(s.reg, key) then Done(s) else Deployed(key, contract, args, s)
    case Redeploy(key, contract, args) =>
      Deployed(key, contract, args, s)
    case Transact(target, fn, args) =>
      if target !in s.reg then Aborted(MissingRegistryEntry(target), s.chain)
      else
        (match Eval(args, s.reg)
         case Failure(e) => Aborted(e, s.chain)
         case Success(vs) => Called(target, fn, vs, s))
    case RegisterPreset(target, bp) =>
      match GetPreset(bp)
      case Failure(_) => Aborted(UnsupportedGranularity(bp), s.chain)
      case Success(preset) => Called(target, "setPreset", PresetArgs(preset), s)
  }

  /** Runs the steps in order, stopping at the first error. */
  function Exec(steps: seq<Step>, s: State): Progress
    decreases |steps|
  {
    if steps == [] then Done(s)
    else
      match Apply(steps[0], s)
      case Aborted(e, c) => Aborted(e, c)
      case Done(s1) => Exec(steps[1..], s1)
  }

  /** The transaction `tx` is one that `step` submits: a creation of the
      step's contract, or a call. */
  predicate Issued(step: Step, tx: Tx)
  {
    if step.Resolve? || step.Redeploy? then tx.call.Create? && tx.call.contract == step.contract
    else tx.call.Invoke?
  }

  /** Whatever a step does, the environment only moves forward; when it
      succeeds, it writes exactly the key it produces, with a truthy value,
      and it fails for a missing entry only when it needs one. */
  lemma ApplyFacts(step: Step, s: State)
    ensures Extends(s.chain, ChainOf(Apply(step, s)))
    ensures Apply(step, s).Done? ==> Apply(step, s).state.reg.Keys == s.reg.Keys + Produces(step)
    ensures Apply(step, s).Done? ==> forall k :: k in s.reg && k !in Produces(step) ==> Apply(step, s).state.reg[k] == s.reg[k]
    ensures Apply(step, s).Done? ==> forall k :: k in Produces(step) ==> Truthy(Apply(step, s).state.reg, k)
    ensures Apply(step, s).Aborted? && Apply(step, s).error.MissingRegistryEntry? ==>
      Apply(step, s).error.key in Needs(step) - s.reg.Keys
    ensures Apply(step, s).Aborted? && Apply(step, s).error.UnsupportedGranularity? ==>
      step.RegisterPreset? && GetPreset(step.binStep).Failure?
    ensures |ChainOf(Apply(step, s)).log| <= |s.chain.log| + 1
    ensures forall i :: |s.chain.log| <= i < |ChainOf(Apply(step, s)).log| ==> Issued(step, ChainOf(Apply(step, s)).log[i])
    ensures Apply(step, s).Done? ==>
      forall i :: |s.chain.log| <= i < |Apply(step, s).state.chain.log| ==> Apply(step, s).state.chain.log[i].Mined?
    ensures Apply(step, s).Aborted? ==>
      if Apply(step, s).error.RemoteCallRejected? then
        Apply(step, s).chain.log == s.chain.log + [Reverted(s.chain.nonce, Apply(step, s).error.call)]
      else Apply(step, s).chain == s.chain
  {
    if step.Transact? && step.target in s.reg && Eval(step.args, s.reg).Failure? {
      assert Needs(step) == {step.target} + RefsOf(step.args);
    }
  }

  /** A run of several steps: the environment only moves forward, and when
      the run succeeds it has written exactly the produced keys, each with a
      truthy value, and left every other entry as it was. */
  lemma {:induction false} ExecFacts(steps: seq<Step>, s: State)
    ensures Extends(s.chain, ChainOf(Exec(steps, s)))
    ensures Exec(steps, s).Done? ==> Exec(steps, s).state.reg.Keys == s.reg.Keys + ProducedKeys(steps)
    ensures Exec(steps, s).Done? ==>
      forall k :: k in s.reg && k !in ProducedKeys(steps) ==> Exec(steps, s).state.reg[k] == s.reg[k]
    ensures Exec(steps, s).Done? ==> forall k :: k in ProducedKeys(steps) ==> Truthy(Exec(steps, s).state.reg, k)
    decreases |steps|
  {
    if steps != [] {
      ApplyFacts(steps[0], s);
      match Apply(steps[0], s)
      case Aborted(e, c) =>
      case Done(s1) =>
        ExecFacts(steps[1..], s1);
        ExtendsTransitive(s.chain, s1.chain, ChainOf(Exec(steps[1..], s1)));
    }
  }

  /** The progress a phase of the run reports: the registry it produced, or
      the error it stopped with. */
  function Reported(reg: Registry, failure: Option<DeployError>, c: ChainState): Progress
  {
    if failure.Some? then Aborted(failure.value, c) else Done(State(reg, c))
  }

  /** Running two step lists one after the other is running their
      concatenation. */
  lemma {:induction false} ExecAppend(a: seq<Step>, b: seq<Step>, s: State)
    ensures Exec(a + b, s) == match Exec(a, s)
                              case Aborted(e, c) => Aborted(e, c)
                              case Done(s1) => Exec(b, s1)
    decreases |a|
  {
    if a == [] {
      assert a + b == b;
    } else {
      assert (a + b)[0] == a[0];
      assert (a + b)[1..] == a[1..] + b;
      match Apply(a[0], s)
      case Aborted(e, c) =>
      case Done(s1) => ExecAppend(a[1..], b, s1);
    }
  }

  /** Running the steps from position `i` is running step `i` and then the
      steps after it. */
  lemma ExecStep(steps: seq<Step>, i: nat, s: State)
    requires i < |steps|
    ensures Exec(steps[i..], s) == match Apply(steps[i], s)
                                   case Aborted(e, c) => Aborted(e, c)
                                   case Done(s1) => Exec(steps[i + 1..], s1)
  {
    assert steps[i..][0] == steps[i];
    assert steps[i..][1..] == steps[i + 1..];
  }

  /** A resolve step whose key already holds a truthy address does nothing. */
  lemma ExecReuses(steps: seq<Step>, i: nat, s: State)
    requires i < |steps| && steps[i].Resolve? && Truthy(s.reg, steps[i].key)
    ensures Exec(steps[i..], s) == Exec(steps[i + 1..], s)
  {
    ExecStep(steps, i, s);
  }

  /** A deploying step with evaluated arguments `vs`: mined, it records the
      new address and the run goes on; reverted, the run stops. */
  lemma ExecDeploys(steps: seq<Step>, i: nat, s: State, vs: seq<Arg>)
    requires i < |steps| && (steps[i].Redeploy? || (steps[i].Resolve? && !Truthy(s.reg, steps[i].key)))
    requires Eval(steps[i].args, s.reg) == Success(vs)
    ensures var call := Create(steps[i].contract, vs);
      Exec(steps[i..], s) ==
        if Accepts(s.chain) then Exec(steps[i + 1..], State(s.reg[steps[i].key := AddressOf(s.chain.nonce)], Submitted(s.chain, call)))
        else Aborted(RemoteCallRejected(call), Submitted(s.chain, call))
  {
    ExecStep(steps, i, s);
  }

  /** A transaction step on the contract at `target` with evaluated arguments
      `vs`: mined, the run goes on with the registry unchanged; reverted, the
      run stops. */
  lemma ExecTransacts(steps: seq<Step>, i: nat, s: State, vs: seq<Arg>)
    requires i < |steps| && steps[i].Transact? && steps[i].target in s.reg
    requires Eval(steps[i].args, s.reg) == Success(vs)
    ensures var call := Invoke(s.reg[steps[i].target], steps[i].fn, vs);
      Exec(steps[i..], s) ==
        if Accepts(s.chain) then Exec(steps[i + 1..], State(s.reg, Submitted(s.chain, call)))
        else Aborted(RemoteCallRejected(call), Submitted(s.chain, call))
  {
    ExecStep(steps, i, s);
  }

  /** A preset step for a catalog key: a setPreset transaction with the
      preset's fields. */
  lemma ExecRegistersPreset(steps: seq<Step>, i: nat, s: State, preset: FactoryPreset)
    requires i < |steps| && steps[i].RegisterPreset? && steps[i].target in s.reg
    requires GetPreset(steps[i].binStep) == Success(preset)
    ensures var call := Invoke(s.reg[steps[i].target], "setPreset", PresetArgs(preset));
      Exec(steps[i..], s) ==
        if Accepts(s.chain) then Exec(steps[i + 1..], State(s.reg, Submitted(s.chain, call)))
        else Aborted(RemoteCallRejected(call), Submitted(s.chain, call))
  {
    ExecStep(steps, i, s);
  }

  /** Every preset a step list registers is in the catalog. */
  predicate PresetsKnown(steps: seq<Step>)
  {
    forall i :: 0 <= i < |steps| && steps[i].RegisterPreset? ==> GetPreset(steps[i].binStep).Success?
  }

  /** A step list whose every read is of a key present at the start or
      written earlier, and whose presets are in the catalog, can only stop
      because the environment rejected a transaction. */
  lemma {:induction false} ExecWellOrdered(steps: seq<Step>, s: State, avail: set<string>)
    requires WellOrdered(steps, avail) && avail <= s.reg.Keys && PresetsKnown(steps)
    ensures Exec(steps, s).Aborted? ==> Exec(steps, s).error.RemoteCallRejected?
    decreases |steps|
  {
    if steps != [] {
      ApplyFacts(steps[0], s);
      match Apply(steps[0], s)
      case Aborted(e, c) =>
      case Done(s1) =>
        assert PresetsKnown(steps[1..]) by {
          forall i | 0 <= i < |steps[1..]| ensures steps[1..][i] == steps[i + 1] { }
        }
        ExecWellOrdered(steps[1..], s1, avail + Produces(steps[0]));
    }
  }

  /** The run stops at the first rejected transaction: everything it
      submitted before was mined, and a rejection is reported with the
      reverted transaction, which is the last one recorded. */
  lemma {:induction false} ExecStopsAtRejection(steps: seq<Step>, s: State)
    ensures var c := ChainOf(Exec(steps, s));
      Exec(steps, s).Done? ==> forall i :: |s.chain.log| <= i < |c.log| ==> c.log[i].Mined?
    ensures var c := ChainOf(Exec(steps, s));
      Exec(steps, s).Aborted? && Exec(steps, s).error.RemoteCallRejected? ==>
        && |s.chain.log| < |c.log| && 0 < c.nonce
        && c.log[|c.log| - 1] == Reverted(c.nonce - 1, Exec(steps, s).error.call)
        && forall i :: |s.chain.log| <= i < |c.log| - 1 ==> c.log[i].Mined?
    decreases |steps|
  {
    if steps != [] {
      ApplyFacts(steps[0], s);
      match Apply(steps[0], s)
      case Aborted(e, c) =>
      case Done(s1) =>
        ExecStopsAtRejection(steps[1..], s1);
        ExecFacts(steps[1..], s1);
        var c := ChainOf(Exec(steps[1..], s1));
        assert forall i | |s.chain.log| <= i < |s1.chain.log| :: c.log[i] == c.log[..|s1.chain.log|][i];
    }
  }

  /** Unfolding a step list from position `i`, for the static predicates. */
  lemma StaticCons(steps: seq<Step>, i: nat, avail: set<string>)
    requires i < |steps|
    ensures ProducedKeys(steps[i..]) == Produces(steps[i]) + ProducedKeys(steps[i + 1..])
    ensures RedeployKeys(steps[i..]) == (if steps[i].Redeploy? then {steps[i].key} else {}) + RedeployKeys(steps[i + 1..])
    ensures WellOrdered(steps[i..], avail) <==>
      Needs(steps[i]) <= avail && WellOrdered(steps[i + 1..], avail + Produces(steps[i]))
  {
    assert steps[i..][0] == steps[i];
    assert steps[i..][1..] == steps[i + 1..];
  }

  lemma {:induction false} ProducedKeysAppend(a: seq<Step>, b: seq<Step>)
    ensures ProducedKeys(a + b) == ProducedKeys(a) + ProducedKeys(b)
    decreases |a|
  {
    if a == [] {
      assert a + b == b;
    } else {
      assert (a + b)[1..] == a[1..] + b;
      ProducedKeysAppend(a[1..], b);
    }
  }

  lemma {:induction false} RedeployKeysAppend(a: seq<Step>, b: seq<Step>)
    ensures RedeployKeys(a + b) == RedeployKeys(a) + RedeployKeys(b)
    decreases |a|
  {
    if a == [] {
      assert a + b == b;
    } else {
      assert (a + b)[1..] == a[1..] + b;
      RedeployKeysAppend(a[1..], b);
    }
  }

  /** A list whose reads are satisfied, followed by one whose reads are
      satisfied once the first list's keys are written, is well ordered. */
  lemma {:induction false} WellOrderedAppend(a: seq<Step>, b: seq<Step>, avail: set<string>)
    requires WellOrdered(a, avail) && WellOrdered(b, avail + ProducedKeys(a))
    ensures WellOrdered(a + b, avail)
    decreases |a|
  {
    if a == [] {
      assert a + b == b && avail + ProducedKeys(a) == avail;
    } else {
      assert (a + b)[0] == a[0];
      assert (a + b)[1..] == a[1..] + b;
      assert avail + Produces(a[0]) + ProducedKeys(a[1..]) == avail + ProducedKeys(a);
      WellOrderedAppend(a[1..], b, avail + Produces(a[0]));
    }
  }

  /** A list whose reads are satisfied by `avail` stays so when more keys
      are available. */
  lemma {:induction false} WellOrderedGrows(steps: seq<Step>, avail: set<string>, more: set<string>)
    requires WellOrdered(steps, avail) && avail <= more
    ensures WellOrdered(steps, more)
    decreases |steps|
  {
    if steps != [] {
      WellOrderedGrows(steps[1..], avail + Produces(steps[0]), more + Produces(steps[0]));
    }
  }

  /** The references among `ops` are all in `avail`. */
  lemma RefsWithin(ops: seq<Operand>, avail: set<string>)
    requires forall i :: 0 <= i < |ops| && ops[i].Ref? ==> ops[i].key in avail
    ensures RefsOf(ops) <= avail
  {
  }

  /** Resolving never replaces a truthy entry: when the key holds a truthy
      address and no step redeploys it, the address survives the run and the
      run deploys nothing for the contract resolved under that key. */
  lemma {:induction false} ExecKeepsResolved(steps: seq<Step>, s: State, key: string, contract: string)
    requires Truthy(s.reg, key) && key !in RedeployKeys(steps)
    requires ResolvedOnlyAs(steps, contract, key)
    ensures NoCreateOf(ChainOf(Exec(steps, s)).log, |s.chain.log|, contract)
    ensures Exec(steps, s).Done? ==> key in Exec(steps, s).state.reg && Exec(steps, s).state.reg[key] == s.reg[key]
    decreases |steps|
  {
    if steps != [] {
      var step := steps[0];
      ApplyFacts(step, s);
      assert (step.Resolve? || step.Redeploy?) && step.contract == contract ==> Apply(step, s) == Done(s);
      match Apply(step, s)
      case Aborted(e, c) =>
      case Done(s1) =>
        assert ResolvedOnlyAs(steps[1..], contract, key) by {
          forall i | 0 <= i < |steps[1..]| ensures steps[1..][i] == steps[i + 1] { }
        }
        ExecKeepsResolved(steps[1..], s1, key, contract);
        ExecFacts(steps[1..], s1);
        var final := ChainOf(Exec(steps[1..], s1)).log;
        forall i | |s.chain.log| <= i < |s1.chain.log|
          ensures !(final[i].call.Create? && final[i].call.contract == contract)
        {
          assert final[i] == final[..|s1.chain.log|][i] == s1.chain.log[i];
        }
    }
  }

  /** Every key that is redeployed, or produced while it was not truthy, ends
      up holding the address of a contract created during the run. */
  lemma {:induction false} ExecFresh(steps: seq<Step>, s: State, key: string, lo: nat)
    requires lo <= s.chain.nonce
    requires || key in RedeployKeys(steps)
             || (key in ProducedKeys(steps) && !Truthy(s.reg, key))
             || (key in s.reg && CreatedIn(s.reg[key], lo, s.chain.nonce))
    ensures Exec(steps, s).Done? ==>
      key in Exec(steps, s).state.reg && CreatedIn(Exec(steps, s).state.reg[key], lo, Exec(steps, s).state.chain.nonce)
    decreases |steps|
  {
    if steps != [] {
      var step := steps[0];
      ApplyFacts(step, s);
      match Apply(step, s)
      case Aborted(e, c) =>
      case Done(s1) =>
        if key in Produces(step) && (step.Redeploy? || !Truthy(s.reg, key)) {
          assert s1.reg[key] == AddressOf(s.chain.nonce);
        } else if key in s.reg && CreatedIn(s.reg[key], lo, s.chain.nonce) {
          var n :| lo <= n < s.chain.nonce && s.reg[key] == AddressOf(n);
          assert s1.reg[key] == AddressOf(n);
        }
        ExecFresh(steps[1..], s1, key, lo);
    }
  }
}
