/**
 * The deployment script's main routine: load the network's registry, resolve
 * the two tokens, deploy the factory, pair template, router and quoter
 * afresh, wire the factory, register the bin-step-20 preset, whitelist the
 * mock token, create the pair, and write the registry back unless the
 * network is the ephemeral one.
 */
module Deploy {
  import opened Wrappers
  import opened Evm
  import opened Presets
  import opened Registry
  import opened Pipeline

  /** Flash-loan fee the factory is constructed with (passed through unchanged). */
  const FLASH_LOAN_FEE: int := 5000000000000
  /** Active bin id the pair is created at. */
  const ACTIVE_ID: int := 8373869
  /** Bin step of the pair, and of the one preset registered. */
  const PAIR_BIN_STEP: int := 20

  const ZERO: Operand := Lit(AddressArg(ZERO_ADDRESS))

  /** The entries every successful run records. */
  const DEPLOYED_KEYS: set<string> := {WIOTA, MOCK_ERC20, LB_FACTORY, LB_PAIR, LB_ROUTER, LB_QUOTER}
  /** The entries every run overwrites. */
  const CORE_KEYS: set<string> := {LB_FACTORY, LB_PAIR, LB_ROUTER, LB_QUOTER}

  /** Steps 1-2: the tokens, reused when the registry already names them. */
  function TokenSteps(): seq<Step>
  {
    [ Resolve(WIOTA, "wIOTA", []),
      Resolve(MOCK_ERC20, "MockERC20", [Lit(StringArg("MockERC20")), Lit(StringArg("mERC20")), Lit(UintArg(18))]) ]
  }

  /** Steps 3-4: the factory and the pair template. */
  function ExchangeSteps(deployer: Address): seq<Step>
  {
    [ Redeploy(LB_FACTORY, "LBFactory", [Lit(AddressArg(deployer)), Lit(AddressArg(deployer)), Lit(UintArg(FLASH_LOAN_FEE))]),
      Redeploy(LB_PAIR, "LBPair", [Ref(LB_FACTORY)]) ]
  }

  /** Steps 5-6: the router and the quoter. */
  function PeripherySteps(): seq<Step>
  {
    [ Redeploy(LB_ROUTER, "LBRouter", [Ref(LB_FACTORY), ZERO, ZERO, ZERO, ZERO, Ref(WIOTA)]),
      Redeploy(LB_QUOTER, "LBQuoter", [ZERO, ZERO, ZERO, Ref(LB_FACTORY), ZERO, ZERO, Ref(LB_ROUTER)]) ]
  }

  /** Steps 3-6: the exchange contracts, deployed on every run. */
  function CoreSteps(deployer: Address): (steps: seq<Step>)
    ensures steps == ExchangeSteps(deployer) + PeripherySteps()
  {
    var exchange, periphery := ExchangeSteps(deployer), PeripherySteps();
    [exchange[0], exchange[1], periphery[0], periphery[1]]
  }

  /** Steps 7-10: transactions on the factory. */
  function WiringSteps(): seq<Step>
  {
    [ Transact(LB_FACTORY, "setLBPairImplementation", [Ref(LB_PAIR)]),
      RegisterPreset(LB_FACTORY, PAIR_BIN_STEP),
      Transact(LB_FACTORY, "addQuoteAsset", [Ref(MOCK_ERC20)]),
      Transact(LB_FACTORY, "createLBPair", [Ref(WIOTA), Ref(MOCK_ERC20), Lit(UintArg(ACTIVE_ID)), Lit(UintArg(PAIR_BIN_STEP))]) ]
  }

  function DeploySteps(deployer: Address): (steps: seq<Step>)
    ensures steps == TokenSteps() + CoreSteps(deployer) + WiringSteps()
  {
    var tokens, core, wiring := TokenSteps(), CoreSteps(deployer), WiringSteps();
    [tokens[0], tokens[1], core[0], core[1], core[2], core[3], wiring[0], wiring[1], wiring[2], wiring[3]]
  }

  /** What a run returns, what the environment looks like afterwards, and the
      deployment documents afterwards. */
  datatype RunOutcome = RunOutcome(result: Result<Registry, DeployError>, chain: ChainState, files: map<string, Registry>)

  /** The run as a function of the network, the deploying account, the
      deployment documents and the environment before it. */
  function Run(network: string, deployer: Address, files: map<string, Registry>, c0: ChainState): RunOutcome
  {
    var start := Load(network, FileOf(files, network));
    match Exec(DeploySteps(deployer), State(start, c0))
    case Aborted(e, c) => RunOutcome(Failure(e), c, files)
    case Done(s) => RunOutcome(Success(s.reg), s.chain, Persist(files, network, s.reg))
  }

  /** The arguments the token steps deploy with. */
  lemma TokenArgs(reg: Registry)
    ensures Eval(TokenSteps()[0].args, reg) == Success([])
    ensures Eval(TokenSteps()[1].args, reg) == Success([StringArg("MockERC20"), StringArg("mERC20"), UintArg(18)])
  {
    var ops, vs := TokenSteps()[1].args, [StringArg("MockERC20"), StringArg("mERC20"), UintArg(18)];
    forall i | 0 <= i < |ops| ensures ops[i].Lit? && vs[i] == ops[i].arg {
    }
    EvalTo(ops, reg, vs);
  }

  /** The arguments the exchange contracts are constructed with. */
  lemma CoreArgs(deployer: Address, reg: Registry)
    ensures Eval(CoreSteps(deployer)[0].args, reg)
         == Success([AddressArg(deployer), AddressArg(deployer), UintArg(FLASH_LOAN_FEE)])
    ensures LB_FACTORY in reg ==>
      Eval(CoreSteps(deployer)[1].args, reg) == Success([AddressArg(reg[LB_FACTORY])])
    ensures LB_FACTORY in reg && WIOTA in reg ==>
      var zero := AddressArg(ZERO_ADDRESS);
      Eval(CoreSteps(deployer)[2].args, reg)
        == Success([AddressArg(reg[LB_FACTORY]), zero, zero, zero, zero, AddressArg(reg[WIOTA])])
    ensures LB_FACTORY in reg && LB_ROUTER in reg ==>
      var zero := AddressArg(ZERO_ADDRESS);
      Eval(CoreSteps(deployer)[3].args, reg)
        == Success([zero, zero, zero, AddressArg(reg[LB_FACTORY]), zero, zero, AddressArg(reg[LB_ROUTER])])
  {
    var steps, zero := CoreSteps(deployer), AddressArg(ZERO_ADDRESS);
    var vs := [AddressArg(deployer), AddressArg(deployer), UintArg(FLASH_LOAN_FEE)];
    forall i | 0 <= i < 3 ensures steps[0].args[i].Lit? && vs[i] == steps[0].args[i].arg {
    }
    EvalTo(steps[0].args, reg, vs);
    if LB_FACTORY in reg {
      EvalTo(steps[1].args, reg, [AddressArg(reg[LB_FACTORY])]);
    }
    if LB_FACTORY in reg && WIOTA in reg {
      var ops := steps[2].args;
      vs := [AddressArg(reg[LB_FACTORY]), zero, zero, zero, zero, AddressArg(reg[WIOTA])];
      forall i | 0 <= i < |ops|
        ensures if ops[i].Lit? then vs[i] == ops[i].arg else ops[i].key in reg && vs[i] == AddressArg(reg[ops[i].key])
      {
      }
      EvalTo(ops, reg, vs);
    }
    if LB_FACTORY in reg && LB_ROUTER in reg {
      var ops := steps[3].args;
      vs := [zero, zero, zero, AddressArg(reg[LB_FACTORY]), zero, zero, AddressArg(reg[LB_ROUTER])];
      forall i | 0 <= i < |ops|
        ensures if ops[i].Lit? then vs[i] == ops[i].arg else ops[i].key in reg && vs[i] == AddressArg(reg[ops[i].key])
      {
      }
      EvalTo(ops, reg, vs);
    }
  }

  /** The arguments of the factory transactions. */
  lemma WiringArgs(reg: Registry)
    requires WIOTA in reg && MOCK_ERC20 in reg && LB_PAIR in reg
    ensures Eval(WiringSteps()[0].args, reg) == Success([AddressArg(reg[LB_PAIR])])
    ensures Eval(WiringSteps()[2].args, reg) == Success([AddressArg(reg[MOCK_ERC20])])
    ensures Eval(WiringSteps()[3].args, reg)
         == Success([AddressArg(reg[WIOTA]), AddressArg(reg[MOCK_ERC20]), UintArg(ACTIVE_ID), UintArg(PAIR_BIN_STEP)])
  {
    var steps := WiringSteps();
    EvalTo(steps[0].args, reg, [AddressArg(reg[LB_PAIR])]);
    EvalTo(steps[2].args, reg, [AddressArg(reg[MOCK_ERC20])]);
    var ops := steps[3].args;
    var vs := [AddressArg(reg[WIOTA]), AddressArg(reg[MOCK_ERC20]), UintArg(ACTIVE_ID), UintArg(PAIR_BIN_STEP)];
    forall i | 0 <= i < |ops|
      ensures if ops[i].Lit? then vs[i] == ops[i].arg else ops[i].key in reg && vs[i] == AddressArg(reg[ops[i].key])
    {
    }
    EvalTo(ops, reg, vs);
  }

  /** Steps 1-2 of the routine: each token address is reused when the
      registry has a truthy entry for it, and deployed and recorded otherwise. */
  method ResolveTokens(chain: Chain, existing: Registry) returns (results: Registry, failure: Option<DeployError>)
    modifies chain
    ensures Reported(results, failure, chain.State()) == Exec(TokenSteps(), State(existing, old(chain.State())))
  {
    ghost var steps := TokenSteps();
    results, failure := existing, None;
    assert steps[0..] == steps;

    // 1) wIOTA
    var wIOTAAddress := if WIOTA in results then results[WIOTA] else "";
    if wIOTAAddress == "" {
      assert Eval(steps[0].args, results) == Success([]) by { TokenArgs(results); }
      ExecDeploys(steps, 0, State(results, chain.State()), []);
      var deployed := chain.Deploy("wIOTA", []);
      if deployed.None? {
        failure := Some(RemoteCallRejected(Create("wIOTA", [])));
        return;
      }
      wIOTAAddress := deployed.value;
      results := results[WIOTA := wIOTAAddress];
    } else {
      ExecReuses(steps, 0, State(results, chain.State()));
    }

    // 2) MockERC20
    var mockERC20Address := if MOCK_ERC20 in results then results[MOCK_ERC20] else "";
    if mockERC20Address == "" {
      var args := [StringArg("MockERC20"), StringArg("mERC20"), UintArg(18)];
      assert Eval(steps[1].args, results) == Success(args) by { TokenArgs(results); }
      ExecDeploys(steps, 1, State(results, chain.State()), args);
      var deployed := chain.Deploy("MockERC20", args);
      if deployed.None? {
        failure := Some(RemoteCallRejected(Create("MockERC20", args)));
        return;
      }
      mockERC20Address := deployed.value;
      results := results[MOCK_ERC20 := mockERC20Address];
    } else {
      ExecReuses(steps, 1, State(results, chain.State()));
    }
    assert steps[2..] == [];
  }

  /** Steps 3-4 of the routine: the factory and the pair template are
      deployed and their entries overwritten. */
  method DeployExchange(chain: Chain, deployer: Address, existing: Registry) returns (results: Registry, failure: Option<DeployError>)
    modifies chain
    ensures Reported(results, failure, chain.State()) == Exec(ExchangeSteps(deployer), State(existing, old(chain.State())))
    ensures failure.None? ==> results.Keys == existing.Keys + {LB_FACTORY, LB_PAIR}
  {
    ghost var steps := ExchangeSteps(deployer);
    results, failure := existing, None;
    assert steps[0..] == steps;

    // 3) LBFactory
    var factoryArgs := [AddressArg(deployer), AddressArg(deployer), UintArg(FLASH_LOAN_FEE)];
    assert Eval(steps[0].args, results) == Success(factoryArgs) by { CoreArgs(deployer, results); assert steps[0] == CoreSteps(deployer)[0]; }
    ExecDeploys(steps, 0, State(results, chain.State()), factoryArgs);
    var factory := chain.Deploy("LBFactory", factoryArgs);
    if factory.None? {
      failure := Some(RemoteCallRejected(Create("LBFactory", factoryArgs)));
      return;
    }
    var lbFactoryAddress := factory.value;
    results := results[LB_FACTORY := lbFactoryAddress];

    // 4) LBPair
    var pairArgs := [AddressArg(lbFactoryAddress)];
    assert Eval(steps[1].args, results) == Success(pairArgs) by { CoreArgs(deployer, results); assert steps[1] == CoreSteps(deployer)[1]; }
    ExecDeploys(steps, 1, State(results, chain.State()), pairArgs);
    var pair := chain.Deploy("LBPair", pairArgs);
    if pair.None? {
      failure := Some(RemoteCallRejected(Create("LBPair", pairArgs)));
      return;
    }
    var lbPairAddress := pair.value;
    results := results[LB_PAIR := lbPairAddress];
    assert steps[2..] == [];
  }

  /** Steps 5-6 of the routine: the router and the quoter are deployed and
      their entries overwritten. The factory address is the one step 3
      recorded. */
  method DeployPeriphery(chain: Chain, deployer: Address, existing: Registry) returns (results: Registry, failure: Option<DeployError>)
    requires WIOTA in existing && LB_FACTORY in existing
    modifies chain
    ensures Reported(results, failure, chain.State()) == Exec(PeripherySteps(), State(existing, old(chain.State())))
  {
    ghost var steps := PeripherySteps();
    results, failure := existing, None;
    assert steps[0..] == steps;
    var wIOTAAddress, lbFactoryAddress := results[WIOTA], results[LB_FACTORY];

    // 5) LBRouter
    var zero := AddressArg(ZERO_ADDRESS);
    var routerArgs := [AddressArg(lbFactoryAddress), zero, zero, zero, zero, AddressArg(wIOTAAddress)];
    assert Eval(steps[0].args, results) == Success(routerArgs) by { CoreArgs(deployer, results); assert steps[0] == CoreSteps(deployer)[2]; }
    ExecDeploys(steps, 0, State(results, chain.State()), routerArgs);
    var router := chain.Deploy("LBRouter", routerArgs);
    if router.None? {
      failure := Some(RemoteCallRejected(Create("LBRouter", routerArgs)));
      return;
    }
    var lbRouterAddress := router.value;
    results := results[LB_ROUTER := lbRouterAddress];

    // 6) LBQuoter
    var quoterArgs := [zero, zero, zero, AddressArg(lbFactoryAddress), zero, zero, AddressArg(lbRouterAddress)];
    assert Eval(steps[1].args, results) == Success(quoterArgs) by { CoreArgs(deployer, results); assert steps[1] == CoreSteps(deployer)[3]; }
    ExecDeploys(steps, 1, State(results, chain.State()), quoterArgs);
    var quoter := chain.Deploy("LBQuoter", quoterArgs);
    if quoter.None? {
      failure := Some(RemoteCallRejected(Create("LBQuoter", quoterArgs)));
      return;
    }
    var lbQuoterAddress := quoter.value;
    results := results[LB_QUOTER := lbQuoterAddress];
    assert steps[2..] == [];
  }

  /** Steps 3-6 of the routine: the factory, the pair template, the router and
      the quoter are deployed and their entries overwritten. */
  method DeployCore(chain: Chain, deployer: Address, existing: Registry) returns (results: Registry, failure: Option<DeployError>)
    requires WIOTA in existing
    modifies chain
    ensures Reported(results, failure, chain.State()) == Exec(CoreSteps(deployer), State(existing, old(chain.State())))
  {
    ghost var s := State(existing, chain.State());
    ExecAppend(ExchangeSteps(deployer), PeripherySteps(), s);
    results, failure := DeployExchange(chain, deployer, existing);
    if failure.Some? {
      return;
    }
    results, failure := DeployPeriphery(chain, deployer, results);
  }

  /** Steps 7-10 of the routine: transactions on the new factory. They leave
      the registry as it is. */
  method WireFactory(chain: Chain, results: Registry) returns (failure: Option<DeployError>)
    requires WIOTA in results && MOCK_ERC20 in results && LB_FACTORY in results && LB_PAIR in results
    modifies chain
    ensures Reported(results, failure, chain.State()) == Exec(WiringSteps(), State(results, old(chain.State())))
  {
    ghost var steps := WiringSteps();
    failure := None;
    assert steps[0..] == steps;
    var wIOTAAddress, mockERC20Address := results[WIOTA], results[MOCK_ERC20];
    var lbFactoryAddress, lbPairAddress := results[LB_FACTORY], results[LB_PAIR];

    // 7) Set LBPair implementation
    var implArgs := [AddressArg(lbPairAddress)];
    assert Eval(steps[0].args, results) == Success(implArgs) by { WiringArgs(results); }
    ExecTransacts(steps, 0, State(results, chain.State()), implArgs);
    var ok := chain.Transact(lbFactoryAddress, "setLBPairImplementation", implArgs);
    if !ok {
      failure := Some(RemoteCallRejected(Invoke(lbFactoryAddress, "setLBPairImplementation", implArgs)));
      return;
    }

    // 8) Register the preset of the pair's bin step (a catalog key, so the lookup succeeds)
    var preset := GetPreset(PAIR_BIN_STEP).value;
    ExecRegistersPreset(steps, 1, State(results, chain.State()), preset);
    ok := chain.Transact(lbFactoryAddress, "setPreset", PresetArgs(preset));
    if !ok {
      failure := Some(RemoteCallRejected(Invoke(lbFactoryAddress, "setPreset", PresetArgs(preset))));
      return;
    }

    // 9) Whitelist the mock token
    var quoteArgs := [AddressArg(mockERC20Address)];
    assert Eval(steps[2].args, results) == Success(quoteArgs) by { WiringArgs(results); }
    ExecTransacts(steps, 2, State(results, chain.State()), quoteArgs);
    ok := chain.Transact(lbFactoryAddress, "addQuoteAsset", quoteArgs);
    if !ok {
      failure := Some(RemoteCallRejected(Invoke(lbFactoryAddress, "addQuoteAsset", quoteArgs)));
      return;
    }

    // 10) Create the pair
    var pairParams := [AddressArg(wIOTAAddress), AddressArg(mockERC20Address), UintArg(ACTIVE_ID), UintArg(PAIR_BIN_STEP)];
    assert Eval(steps[3].args, results) == Success(pairParams) by { WiringArgs(results); }
    ExecTransacts(steps, 3, State(results, chain.State()), pairParams);
    ok := chain.Transact(lbFactoryAddress, "createLBPair", pairParams);
    if !ok {
      failure := Some(RemoteCallRejected(Invoke(lbFactoryAddress, "createLBPair", pairParams)));
      return;
    }
    assert steps[4..] == [];
  }

  /** The token phase reads nothing and writes the two token entries. */
  lemma TokenPhaseShape()
    ensures Needs(TokenSteps()[0]) == {} && Needs(TokenSteps()[1]) == {}
    ensures ProducedKeys(TokenSteps()) == {WIOTA, MOCK_ERC20}
    ensures RedeployKeys(TokenSteps()) == {}
    ensures WellOrdered(TokenSteps(), {})
  {
    var st := TokenSteps();
    RefsWithin(st[1].args, {});
    assert st[2..] == [];
    StaticCons(st, 1, {WIOTA});
    StaticCons(st, 0, {});
    assert st[0..] == st;
  }

  /** The exchange-contract phase reads the wrapped native token and its own
      earlier entries, and redeploys all four of its entries. */
  lemma CorePhaseShape(deployer: Address)
    ensures ProducedKeys(CoreSteps(deployer)) == CORE_KEYS
    ensures RedeployKeys(CoreSteps(deployer)) == CORE_KEYS
    ensures WellOrdered(CoreSteps(deployer), {WIOTA})
  {
    var st := CoreSteps(deployer);
    var a0 := {WIOTA};
    var a1 := a0 + {LB_FACTORY};
    var a2 := a1 + {LB_PAIR};
    var a3 := a2 + {LB_ROUTER};
    assert st[4..] == [];
    RefsWithin(st[3].args, a3);
    StaticCons(st, 3, a3);
    RefsWithin(st[2].args, a2);
    StaticCons(st, 2, a2);
    RefsWithin(st[1].args, a1);
    StaticCons(st, 1, a1);
    RefsWithin(st[0].args, a0);
    StaticCons(st, 0, a0);
    assert st[0..] == st;
  }

  /** The wiring phase reads the factory, the pair template and the two
      tokens, and writes nothing. */
  lemma WiringPhaseShape()
    ensures ProducedKeys(WiringSteps()) == {}
    ensures RedeployKeys(WiringSteps()) == {}
    ensures WellOrdered(WiringSteps(), DEPLOYED_KEYS)
  {
    var st := WiringSteps();
    assert st[4..] == [];
    RefsWithin(st[3].args, DEPLOYED_KEYS);
    StaticCons(st, 3, DEPLOYED_KEYS);
    RefsWithin(st[2].args, DEPLOYED_KEYS);
    StaticCons(st, 2, DEPLOYED_KEYS);
    StaticCons(st, 1, DEPLOYED_KEYS);
    RefsWithin(st[0].args, DEPLOYED_KEYS);
    StaticCons(st, 0, DEPLOYED_KEYS);
    assert st[0..] == st;
  }

  /** The script's main routine. The registry is a local dictionary that the
      steps update in place; the document is read at the start and written
      only after the last step, and neither happens on the ephemeral network. */
  method Deploy(network: string, deployer: Address, chain: Chain, store: DeploymentStore)
    returns (result: Result<Registry, DeployError>)
    modifies chain, store
    ensures RunOutcome(result, chain.State(), store.files) == Run(network, deployer, old(store.files), old(chain.State()))
  {
    var isLocalHardhat := network == HARDHAT;
    var existingData: Registry := map[];
    if !isLocalHardhat {
      var file := store.Read(network);
      if file.Some? {
        existingData := file.value;
      }
    }
    var results := existingData;
    ghost var s0 := State(results, chain.State());
    ExecAppend(TokenSteps() + CoreSteps(deployer), WiringSteps(), s0);
    ExecAppend(TokenSteps(), CoreSteps(deployer), s0);

    TokenPhaseShape();
    CorePhaseShape(deployer);

    var failure;
    results, failure := ResolveTokens(chain, results);
    if failure.Some? {
      return Failure(failure.value);
    }
    ExecFacts(TokenSteps(), s0);

    ghost var s1 := State(results, chain.State());
    results, failure := DeployCore(chain, deployer, results);
    if failure.Some? {
      return Failure(failure.value);
    }
    ExecFacts(CoreSteps(deployer), s1);

    failure := WireFactory(chain, results);
    if failure.Some? {
      return Failure(failure.value);
    }

    if !isLocalHardhat {
      store.Write(network, results);
    }
    result := Success(results);
  }
}
