/**
 * What a run of the deployment routine guarantees, stated over `Run`: which
 * registry entries it reuses and which it deploys afresh, the exact
 * transactions it submits for the exchange contracts and the factory wiring,
 * when the deployment document is written, and what a second run on the same
 * network does with the document the first one wrote.
 */
module DeployProperties {
  import opened Wrappers
  import opened Evm
  import opened Presets
  import opened Registry
  import opened Pipeline
  import opened Deploy

  /** The registry a run on `network` starts from. */
  function Start(network: string, files: map<string, Registry>): Registry
  {
    Load(network, FileOf(files, network))
  }

  /** The routine's steps write the six entries and redeploy the four
      exchange contracts. */
  lemma PipelineKeys(deployer: Address)
    ensures ProducedKeys(DeploySteps(deployer)) == DEPLOYED_KEYS
    ensures RedeployKeys(DeploySteps(deployer)) == CORE_KEYS
  {
    var t, c, w := TokenSteps(), CoreSteps(deployer), WiringSteps();
    TokenPhaseShape();
    CorePhaseShape(deployer);
    WiringPhaseShape();
    ProducedKeysAppend(t, c);
    ProducedKeysAppend(t + c, w);
    RedeployKeysAppend(t, c);
    RedeployKeysAppend(t + c, w);
  }

  /** Every entry a step of the routine reads is written by an earlier step. */
  lemma PipelineOrdered(deployer: Address)
    ensures WellOrdered(DeploySteps(deployer), {})
  {
    var t, c, w := TokenSteps(), CoreSteps(deployer), WiringSteps();
    TokenPhaseShape();
    CorePhaseShape(deployer);
    WiringPhaseShape();
    assert {} + ProducedKeys(t) == {WIOTA, MOCK_ERC20};
    WellOrderedGrows(c, {WIOTA}, {WIOTA, MOCK_ERC20});
    WellOrderedAppend(t, c, {});
    ProducedKeysAppend(t, c);
    assert {} + ProducedKeys(t + c) == DEPLOYED_KEYS;
    WellOrderedAppend(t + c, w, {});
  }

  /** The routine's steps, taken as a whole: they write the six entries, they
      redeploy the four exchange contracts, and every entry a step reads is
      written by an earlier step. */
  lemma PipelineShape(deployer: Address)
    ensures ProducedKeys(DeploySteps(deployer)) == DEPLOYED_KEYS
    ensures RedeployKeys(DeploySteps(deployer)) == CORE_KEYS
    ensures WellOrdered(DeploySteps(deployer), {})
  {
    PipelineKeys(deployer);
    PipelineOrdered(deployer);
  }

  /** The one preset the routine registers is in the catalog, and each token
      contract is deployed only by the step that resolves it under its own
      entry. */
  lemma PipelineDeploysTokensOnce(deployer: Address)
    ensures PresetsKnown(DeploySteps(deployer))
    ensures ResolvedOnlyAs(DeploySteps(deployer), WIOTA, WIOTA)
    ensures ResolvedOnlyAs(DeploySteps(deployer), MOCK_ERC20, MOCK_ERC20)
  {
    var st := DeploySteps(deployer);
    forall i | 0 <= i < |st|
      ensures st[i].RegisterPreset? ==> GetPreset(st[i].binStep).Success?
      ensures (st[i].Resolve? || st[i].Redeploy?) && st[i].contract == WIOTA ==> st[i].Resolve? && st[i].key == WIOTA
      ensures (st[i].Resolve? || st[i].Redeploy?) && st[i].contract == MOCK_ERC20 ==> st[i].Resolve? && st[i].key == MOCK_ERC20
    {
    }
  }

  /** 1 when the registry `reg` has no truthy entry `key`, so that the token
      phase deploys that token; 0 when it reuses the entry. */
  function Missing(reg: Registry, key: string): nat
  {
    if Truthy(reg, key) then 0 else 1
  }

  /** The constructor arguments of the mock token: name, symbol, decimals. */
  const MOCK_ERC20_ARGS: seq<Arg> := [StringArg("MockERC20"), StringArg("mERC20"), UintArg(18)]

  /** `log` holds, from position `k` on and with nonces from `n` on, what the
      token phase submits from the registry `start`, and `reg` holds the
      token addresses it settles on: a token without a truthy entry is
      created (wIOTA first, then the mock token) and its new address
      recorded; a token with a truthy entry keeps that entry and submits
      nothing. */
  ghost predicate TokensRecorded(log: seq<Tx>, k: nat, n: nat, start: Registry, reg: Registry)
  {
    var w := Missing(start, WIOTA);
    && k + w + Missing(start, MOCK_ERC20) <= |log|
    && WIOTA in reg && MOCK_ERC20 in reg
    && (if w == 1 then log[k] == Mined(n, Create("wIOTA", [])) && reg[WIOTA] == AddressOf(n)
        else reg[WIOTA] == start[WIOTA])
    && (if Missing(start, MOCK_ERC20) == 1
        then log[k + w] == Mined(n + w, Create("MockERC20", MOCK_ERC20_ARGS)) && reg[MOCK_ERC20] == AddressOf(n + w)
        else reg[MOCK_ERC20] == start[MOCK_ERC20])
  }

  /** The mock-token step: reused, it changes nothing; otherwise, when it
      succeeds, it was mined and recorded the new address. */
  lemma TokenTailEffect(s: State)
    ensures var r := Exec(TokenSteps()[1..], s);
      r.Done? ==>
        if Truthy(s.reg, MOCK_ERC20) then r.state == s
        else
          && Accepts(s.chain)
          && r.state == State(s.reg[MOCK_ERC20 := AddressOf(s.chain.nonce)],
                              Submitted(s.chain, Create("MockERC20", MOCK_ERC20_ARGS)))
  {
    var st := TokenSteps();
    assert st[2..] == [];
    if Truthy(s.reg, MOCK_ERC20) {
      ExecReuses(st, 1, s);
    } else {
      TokenArgs(s.reg);
      ExecDeploys(st, 1, s, MOCK_ERC20_ARGS);
    }
  }

  /** When the token phase succeeds, it has submitted one mined creation per
      token without a truthy entry, with consecutive nonces, and nothing for
      a reused token. */
  lemma TokenEffect(s: State)
    ensures var n, log := s.chain.nonce, s.chain.log;
      var t := Missing(s.reg, WIOTA) + Missing(s.reg, MOCK_ERC20);
      var r := Exec(TokenSteps(), s);
      r.Done? ==>
        && r.state.chain.nonce == n + t
        && |r.state.chain.log| == |log| + t
        && TokensRecorded(r.state.chain.log, |log|, n, s.reg, r.state.reg)
  {
    var st, n, log := TokenSteps(), s.chain.nonce, s.chain.log;
    assert st[0..] == st;
    KeysDistinct();
    if Truthy(s.reg, WIOTA) {
      ExecReuses(st, 0, s);
      TokenTailEffect(s);
    } else {
      TokenArgs(s.reg);
      ExecDeploys(st, 0, s, []);
      var s1 := State(s.reg[WIOTA := AddressOf(n)], Submitted(s.chain, Create("wIOTA", [])));
      TokenTailEffect(s1);
      var r := Exec(st, s);
      if r.Done? && Accepts(s.chain) && !Truthy(s.reg, MOCK_ERC20) {
        assert r.state.chain.log[|log|] == s1.chain.log[|log|];
      }
    }
  }

  /** The router and the quoter, the last two exchange-contract steps, from
      a state whose registry already names the factory `f` created with nonce
      `m`. */
  lemma CoreTailEffect(deployer: Address, s: State, m: nat)
    requires WIOTA in s.reg && LB_FACTORY in s.reg && s.reg[LB_FACTORY] == AddressOf(m)
    ensures var n, log, zero := s.chain.nonce, s.chain.log, AddressArg(ZERO_ADDRESS);
      var r := Exec(CoreSteps(deployer)[2..], s);
      r.Done? ==>
        && r.state.reg == s.reg[LB_ROUTER := AddressOf(n)][LB_QUOTER := AddressOf(n + 1)]
        && r.state.chain.nonce == n + 2
        && |r.state.chain.log| == |log| + 2
        && r.state.chain.log[..|log|] == log
        && r.state.chain.log[|log|]
           == Mined(n, Create("LBRouter", [AddressArg(AddressOf(m)), zero, zero, zero, zero, AddressArg(s.reg[WIOTA])]))
        && r.state.chain.log[|log| + 1]
           == Mined(n + 1, Create("LBQuoter", [zero, zero, zero, AddressArg(AddressOf(m)), zero, zero, AddressArg(AddressOf(n))]))
  {
    var st, n, zero := CoreSteps(deployer), s.chain.nonce, AddressArg(ZERO_ADDRESS);
    var args := [AddressArg(AddressOf(m)), zero, zero, zero, zero, AddressArg(s.reg[WIOTA])];
    assert Eval(st[2].args, s.reg) == Success(args) by { CoreArgs(deployer, s.reg); }
    ExecDeploys(st, 2, s, args);
    if Accepts(s.chain) {
      var s1 := State(s.reg[LB_ROUTER := AddressOf(n)], Submitted(s.chain, Create("LBRouter", args)));
      args := [zero, zero, zero, AddressArg(AddressOf(m)), zero, zero, AddressArg(AddressOf(n))];
      assert Eval(st[3].args, s1.reg) == Success(args) by { KeysDistinct(); CoreArgs(deployer, s1.reg); }
      ExecDeploys(st, 3, s1, args);
      assert st[4..] == [];
    }
  }

  /** The factory and the pair template, the first two exchange-contract
      steps: when the phase succeeds, both were mined, and the phase goes on
      from the state that records them. */
  lemma CoreHeadEffect(deployer: Address, s: State)
    requires WIOTA in s.reg
    ensures var n := s.chain.nonce;
      var c1 := Submitted(s.chain, Create("LBFactory", [AddressArg(deployer), AddressArg(deployer), UintArg(FLASH_LOAN_FEE)]));
      var c2 := Submitted(c1, Create("LBPair", [AddressArg(AddressOf(n))]));
      Exec(CoreSteps(deployer), s).Done? ==>
        && Accepts(s.chain) && Accepts(c1)
        && Exec(CoreSteps(deployer), s) == Exec(CoreSteps(deployer)[2..], State(s.reg[LB_FACTORY := AddressOf(n)][LB_PAIR := AddressOf(n + 1)], c2))
  {
    var st, n := CoreSteps(deployer), s.chain.nonce;
    assert st[0..] == st;
    var args := [AddressArg(deployer), AddressArg(deployer), UintArg(FLASH_LOAN_FEE)];
    assert Eval(st[0].args, s.reg) == Success(args) by { CoreArgs(deployer, s.reg); }
    ExecDeploys(st, 0, s, args);
    var s1 := State(s.reg[LB_FACTORY := AddressOf(n)], Submitted(s.chain, Create("LBFactory", args)));
    assert Eval(st[1].args, s1.reg) == Success([AddressArg(AddressOf(n))]) by { CoreArgs(deployer, s1.reg); }
    ExecDeploys(st, 1, s1, [AddressArg(AddressOf(n))]);
  }

  /** When the exchange-contract phase succeeds, it has created the four
      contracts with consecutive nonces, in dependency order, and recorded
      exactly their addresses: the pair template, the router and the quoter
      are constructed with the factory created just before them, the router
      with the registry's wrapped native token, and the quoter with the
      router. */
  lemma CoreEffect(deployer: Address, s: State)
    requires WIOTA in s.reg
    ensures var n, log, zero := s.chain.nonce, s.chain.log, AddressArg(ZERO_ADDRESS);
      var r := Exec(CoreSteps(deployer), s);
      r.Done? ==>
        && r.state.reg == s.reg[LB_FACTORY := AddressOf(n)][LB_PAIR := AddressOf(n + 1)]
                               [LB_ROUTER := AddressOf(n + 2)][LB_QUOTER := AddressOf(n + 3)]
        && r.state.chain.nonce == n + 4
        && |r.state.chain.log| == |log| + 4
        && r.state.chain.log[|log|] == Mined(n, Create("LBFactory", [AddressArg(deployer), AddressArg(deployer), UintArg(FLASH_LOAN_FEE)]))
        && r.state.chain.log[|log| + 1] == Mined(n + 1, Create("LBPair", [AddressArg(AddressOf(n))]))
        && r.state.chain.log[|log| + 2]
           == Mined(n + 2, Create("LBRouter", [AddressArg(AddressOf(n)), zero, zero, zero, zero, AddressArg(s.reg[WIOTA])]))
        && r.state.chain.log[|log| + 3]
           == Mined(n + 3, Create("LBQuoter", [zero, zero, zero, AddressArg(AddressOf(n)), zero, zero, AddressArg(AddressOf(n + 2))]))
  {
    var n, log := s.chain.nonce, s.chain.log;
    CoreHeadEffect(deployer, s);
    var c1 := Submitted(s.chain, Create("LBFactory", [AddressArg(deployer), AddressArg(deployer), UintArg(FLASH_LOAN_FEE)]));
    var c2 := Submitted(c1, Create("LBPair", [AddressArg(AddressOf(n))]));
    var s2 := State(s.reg[LB_FACTORY := AddressOf(n)][LB_PAIR := AddressOf(n + 1)], c2);
    KeysDistinct();
    CoreTailEffect(deployer, s2, n);
    var r := Exec(CoreSteps(deployer)[2..], s2);
    if r.Done? && Accepts(s.chain) && Accepts(c1) {
      assert r.state.chain.log[|log|] == r.state.chain.log[..|c2.log|][|log|] == c2.log[|log|];
      assert r.state.chain.log[|log| + 1] == r.state.chain.log[..|c2.log|][|log| + 1] == c2.log[|log| + 1];
    }
  }

  /** When the wiring phase succeeds, it has sent exactly the four factory
      transactions, in order, and left the registry as it was: the pair
      template is installed, the catalog's preset for the pair's bin step is
      registered, the mock token is whitelisted as a quote asset, and the
      wrapped-native/mock pair is created at the active id and bin step. */
  lemma WiringEffect(s: State)
    requires LB_FACTORY in s.reg && LB_PAIR in s.reg && WIOTA in s.reg && MOCK_ERC20 in s.reg
    ensures var n, log, factory := s.chain.nonce, s.chain.log, s.reg[LB_FACTORY];
      var r := Exec(WiringSteps(), s);
      r.Done? ==>
        && r.state.reg == s.reg
        && r.state.chain.nonce == n + 4
        && |r.state.chain.log| == |log| + 4
        && r.state.chain.log[|log|] == Mined(n, Invoke(factory, "setLBPairImplementation", [AddressArg(s.reg[LB_PAIR])]))
        && r.state.chain.log[|log| + 1] == Mined(n + 1, Invoke(factory, "setPreset", PresetArgs(GetPreset(PAIR_BIN_STEP).value)))
        && r.state.chain.log[|log| + 2] == Mined(n + 2, Invoke(factory, "addQuoteAsset", [AddressArg(s.reg[MOCK_ERC20])]))
        && r.state.chain.log[|log| + 3] == Mined(n + 3, Invoke(factory, "createLBPair",
             [AddressArg(s.reg[WIOTA]), AddressArg(s.reg[MOCK_ERC20]), UintArg(ACTIVE_ID), UintArg(PAIR_BIN_STEP)]))
  {
    var st, reg, factory := WiringSteps(), s.reg, s.reg[LB_FACTORY];
    assert st[0..] == st;
    WiringArgs(reg);
    var args := [AddressArg(reg[LB_PAIR])];
    ExecTransacts(st, 0, s, args);
    if Accepts(s.chain) {
      var s1 := State(reg, Submitted(s.chain, Invoke(factory, "setLBPairImplementation", args)));
      var preset := GetPreset(PAIR_BIN_STEP).value;
      ExecRegistersPreset(st, 1, s1, preset);
      if Accepts(s1.chain) {
        var s2 := State(reg, Submitted(s1.chain, Invoke(factory, "setPreset", PresetArgs(preset))));
        args := [AddressArg(reg[MOCK_ERC20])];
        ExecTransacts(st, 2, s2, args);
        if Accepts(s2.chain) {
          var s3 := State(reg, Submitted(s2.chain, Invoke(factory, "addQuoteAsset", args)));
          args := [AddressArg(reg[WIOTA]), AddressArg(reg[MOCK_ERC20]), UintArg(ACTIVE_ID), UintArg(PAIR_BIN_STEP)];
          ExecTransacts(st, 3, s3, args);
          assert st[4..] == [];
        }
      }
    }
  }
  /** A successful run, phase by phase: the token phase from the loaded
      registry, the exchange-contract phase after it and the wiring phase
      last, which ends in the run's result and environment. */
  lemma RunPhases(network: string, deployer: Address, files: map<string, Registry>, c0: ChainState)
    returns (s1: State, s2: State)
    requires Run(network, deployer, files, c0).result.Success?
    ensures var out := Run(network, deployer, files, c0);
      && Exec(TokenSteps(), State(Start(network, files), c0)) == Done(s1)
      && Exec(CoreSteps(deployer), s1) == Done(s2)
      && Exec(WiringSteps(), s2) == Done(State(out.result.value, out.chain))
      && WIOTA in s1.reg && MOCK_ERC20 in s1.reg
  {
    var s0 := State(Start(network, files), c0);
    var t, c, w := TokenSteps(), CoreSteps(deployer), WiringSteps();
    ExecAppend(t + c, w, s0);
    ExecAppend(t, c, s0);
    s1 := Exec(t, s0).state;
    s2 := Exec(c, s1).state;
    ExecFacts(t, s0);
    TokenPhaseShape();
  }

  /** A run fails only when the environment rejects a transaction: no
      registry entry is ever missing and the preset is always in the
      catalog. The failure names the reverted transaction, which is the last
      one recorded, and everything the run submitted before it was mined; a
      successful run had all its transactions mined. */
  lemma RunFailsOnlyOnRejection(network: string, deployer: Address, files: map<string, Registry>, c0: ChainState)
    ensures var out := Run(network, deployer, files, c0);
      && Extends(c0, out.chain)
      && (out.result.Failure? ==>
            && out.result.error.RemoteCallRejected?
            && |c0.log| < |out.chain.log| && 0 < out.chain.nonce
            && out.chain.log[|out.chain.log| - 1] == Reverted(out.chain.nonce - 1, out.result.error.call)
            && forall i :: |c0.log| <= i < |out.chain.log| - 1 ==> out.chain.log[i].Mined?)
      && (out.result.Success? ==> forall i :: |c0.log| <= i < |out.chain.log| ==> out.chain.log[i].Mined?)
  {
    var s0, st := State(Start(network, files), c0), DeploySteps(deployer);
    assert Exec(st, s0).Aborted? ==> Exec(st, s0).error.RemoteCallRejected? by {
      PipelineShape(deployer);
      PipelineDeploysTokensOnce(deployer);
      ExecWellOrdered(st, s0, {});
    }
    ExecStopsAtRejection(st, s0);
    ExecFacts(st, s0);
  }

  /** A successful run's registry holds the six entries, each truthy, on top
      of what it loaded, and every other loaded entry is left as it was. */
  lemma RunRecordsEntries(network: string, deployer: Address, files: map<string, Registry>, c0: ChainState)
    ensures var start, out := Start(network, files), Run(network, deployer, files, c0);
      out.result.Success? ==>
        && out.result.value.Keys == start.Keys + DEPLOYED_KEYS
        && (forall k :: k in DEPLOYED_KEYS ==> Truthy(out.result.value, k))
        && (forall k :: k in start && k !in DEPLOYED_KEYS ==> out.result.value[k] == start[k])
  {
    PipelineShape(deployer);
    ExecFacts(DeploySteps(deployer), State(Start(network, files), c0));
  }

  /** The document is written once, at the end of a successful run, with
      the run's registry, and only on a persistent network; it then passes
      the liquidity scripts' check. A failed run, or any run on the ephemeral
      network, leaves every document as it was. */
  lemma RunPersistence(network: string, deployer: Address, files: map<string, Registry>, c0: ChainState)
    ensures var out := Run(network, deployer, files, c0);
      && (IsEphemeral(network) || out.result.Failure? ==> out.files == files)
      && (!IsEphemeral(network) && out.result.Success? ==>
            && out.files == files[network := out.result.value]
            && LiquidityReady(FileOf(out.files, network)))
  {
    RunRecordsEntries(network, deployer, files, c0);
  }

  /** A token whose entry is truthy is reused: the run deploys nothing for
      it and a successful run keeps its address. */
  lemma RunReusesToken(network: string, deployer: Address, files: map<string, Registry>, c0: ChainState, key: string)
    requires key == WIOTA || key == MOCK_ERC20
    requires Truthy(Start(network, files), key)
    ensures var out := Run(network, deployer, files, c0);
      && NoCreateOf(out.chain.log, |c0.log|, key)
      && (out.result.Success? ==> key in out.result.value && out.result.value[key] == Start(network, files)[key])
  {
    PipelineShape(deployer);
    PipelineDeploysTokensOnce(deployer);
    KeysDistinct();
    ExecKeepsResolved(DeploySteps(deployer), State(Start(network, files), c0), key, key);
  }

  /** A token without a truthy entry, and each of the four exchange
      contracts whatever the registry held, gets the address of a contract
      created during the run. */
  lemma RunDeploysFresh(network: string, deployer: Address, files: map<string, Registry>, c0: ChainState, key: string)
    requires key in CORE_KEYS || ((key == WIOTA || key == MOCK_ERC20) && !Truthy(Start(network, files), key))
    ensures var out := Run(network, deployer, files, c0);
      out.result.Success? ==> key in out.result.value && CreatedIn(out.result.value[key], c0.nonce, out.chain.nonce)
  {
    PipelineShape(deployer);
    ExecFresh(DeploySteps(deployer), State(Start(network, files), c0), key, c0.nonce);
  }

  /** `log` holds, from position `k` on and with nonces from `n` on, the
      eight transactions a successful run ends with, for the registry `reg`
      it ends with: the factory, the pair template, the router and the quoter
      are created with consecutive nonces and recorded under their entries,
      each constructed with the contracts created before it and with the
      registry's tokens; then the new factory is given the pair template and
      the catalog's preset for the pair's bin step, whitelists the mock token
      and creates the wrapped-native/mock pair. */
  ghost predicate EndsWithDeployment(log: seq<Tx>, k: nat, n: nat, deployer: Address, reg: Registry)
  {
    var zero, factory := AddressArg(ZERO_ADDRESS), AddressOf(n);
    && k + 8 <= |log|
    && WIOTA in reg && MOCK_ERC20 in reg
    && LB_FACTORY in reg && LB_PAIR in reg && LB_ROUTER in reg && LB_QUOTER in reg
    && reg[LB_FACTORY] == factory && reg[LB_PAIR] == AddressOf(n + 1)
    && reg[LB_ROUTER] == AddressOf(n + 2) && reg[LB_QUOTER] == AddressOf(n + 3)
    && log[k] == Mined(n, Create("LBFactory", [AddressArg(deployer), AddressArg(deployer), UintArg(FLASH_LOAN_FEE)]))
    && log[k + 1] == Mined(n + 1, Create("LBPair", [AddressArg(factory)]))
    && log[k + 2] == Mined(n + 2, Create("LBRouter", [AddressArg(factory), zero, zero, zero, zero, AddressArg(reg[WIOTA])]))
    && log[k + 3] == Mined(n + 3, Create("LBQuoter", [zero, zero, zero, AddressArg(factory), zero, zero, AddressArg(AddressOf(n + 2))]))
    && log[k + 4] == Mined(n + 4, Invoke(factory, "setLBPairImplementation", [AddressArg(AddressOf(n + 1))]))
    && log[k + 5] == Mined(n + 5, Invoke(factory, "setPreset", PresetArgs(GetPreset(PAIR_BIN_STEP).value)))
    && log[k + 6] == Mined(n + 6, Invoke(factory, "addQuoteAsset", [AddressArg(reg[MOCK_ERC20])]))
    && log[k + 7] == Mined(n + 7, Invoke(factory, "createLBPair",
                            [AddressArg(reg[WIOTA]), AddressArg(reg[MOCK_ERC20]), UintArg(ACTIVE_ID), UintArg(PAIR_BIN_STEP)]))
  }

  /** The exchange-contract and wiring phases together, from the state `s1`
      the token phase left: eight transactions from `s1`'s nonce on. */
  lemma PhasesTransactions(deployer: Address, s1: State, s2: State, s3: State)
    requires WIOTA in s1.reg && MOCK_ERC20 in s1.reg
    requires Exec(CoreSteps(deployer), s1) == Done(s2) && Exec(WiringSteps(), s2) == Done(s3)
    ensures s3.chain.nonce == s1.chain.nonce + 8 && |s3.chain.log| == |s1.chain.log| + 8
    ensures EndsWithDeployment(s3.chain.log, |s1.chain.log|, s1.chain.nonce, deployer, s3.reg)
  {
    CoreEffect(deployer, s1);
    KeysDistinct();
    WiringEffect(s2);
    var k := |s1.chain.log|;
    assert Extends(s2.chain, s3.chain) by { ExecFacts(WiringSteps(), s2); }
    ExtendsKeeps(s2.chain, s3.chain, k);
    ExtendsKeeps(s2.chain, s3.chain, k + 1);
    ExtendsKeeps(s2.chain, s3.chain, k + 2);
    ExtendsKeeps(s2.chain, s3.chain, k + 3);
  }

  /** The exchange-contract and wiring phases only append to the log and
      leave both token entries as the token phase recorded them. */
  lemma PhasesKeepTokens(deployer: Address, s1: State, s2: State, s3: State)
    requires Exec(CoreSteps(deployer), s1) == Done(s2) && Exec(WiringSteps(), s2) == Done(s3)
    requires WIOTA in s1.reg && MOCK_ERC20 in s1.reg
    ensures Extends(s1.chain, s3.chain)
    ensures WIOTA in s3.reg && s3.reg[WIOTA] == s1.reg[WIOTA]
    ensures MOCK_ERC20 in s3.reg && s3.reg[MOCK_ERC20] == s1.reg[MOCK_ERC20]
  {
    assert Extends(s1.chain, s2.chain) && Extends(s2.chain, s3.chain) by {
      ExecFacts(CoreSteps(deployer), s1);
      ExecFacts(WiringSteps(), s2);
    }
    ExtendsTransitive(s1.chain, s2.chain, s3.chain);
    CoreEffect(deployer, s1);
    KeysDistinct();
    WiringEffect(s2);
  }

  /** What the token phase recorded in the log and the registry survives
      later transactions and later phases that keep the token entries. */
  lemma TokensRecordedKept(log1: seq<Tx>, log2: seq<Tx>, k: nat, n: nat, start: Registry, reg1: Registry, reg2: Registry)
    requires TokensRecorded(log1, k, n, start, reg1)
    requires |log1| <= |log2| && log2[..|log1|] == log1
    requires WIOTA in reg2 && reg2[WIOTA] == reg1[WIOTA]
    requires MOCK_ERC20 in reg2 && reg2[MOCK_ERC20] == reg1[MOCK_ERC20]
    ensures TokensRecorded(log2, k, n, start, reg2)
  {
    var w := Missing(start, WIOTA);
    if w == 1 {
      assert log2[k] == log2[..|log1|][k];
    }
    if Missing(start, MOCK_ERC20) == 1 {
      assert log2[k + w] == log2[..|log1|][k + w];
    }
  }

  /** A successful run submits exactly the token creations of the tokens it
      does not reuse, then the eight transactions that deploy and wire the
      exchange contracts, all mined with consecutive nonces. */
  lemma RunTransactions(network: string, deployer: Address, files: map<string, Registry>, c0: ChainState)
    requires Run(network, deployer, files, c0).result.Success?
    ensures var start, out := Start(network, files), Run(network, deployer, files, c0);
      var t := Missing(start, WIOTA) + Missing(start, MOCK_ERC20);
      && out.chain.nonce == c0.nonce + t + 8 && |out.chain.log| == |c0.log| + t + 8
      && TokensRecorded(out.chain.log, |c0.log|, c0.nonce, start, out.result.value)
      && EndsWithDeployment(out.chain.log, |c0.log| + t, c0.nonce + t, deployer, out.result.value)
  {
    var s0 := State(Start(network, files), c0);
    var s1, s2 := RunPhases(network, deployer, files, c0);
    var out := Run(network, deployer, files, c0);
    var s3 := State(out.result.value, out.chain);
    TokenEffect(s0);
    PhasesTransactions(deployer, s1, s2, s3);
    PhasesKeepTokens(deployer, s1, s2, s3);
    TokensRecordedKept(s1.chain.log, s3.chain.log, |c0.log|, c0.nonce, s0.reg, s1.reg, s3.reg);
  }

  /** A run that starts from an empty registry, as every run on the
      ephemeral network does, records exactly the six entries, each the
      address of a contract it created itself. */
  lemma RunFromScratch(network: string, deployer: Address, files: map<string, Registry>, c0: ChainState)
    requires Start(network, files) == map[]
    ensures var out := Run(network, deployer, files, c0);
      out.result.Success? ==>
        && out.result.value.Keys == DEPLOYED_KEYS
        && (forall k :: k in DEPLOYED_KEYS ==> CreatedIn(out.result.value[k], c0.nonce, out.chain.nonce))
        && out.chain.nonce == c0.nonce + 10 && |out.chain.log| == |c0.log| + 10
        && out.chain.log[|c0.log|] == Mined(c0.nonce, Create("wIOTA", []))
        && out.chain.log[|c0.log| + 1] == Mined(c0.nonce + 1, Create("MockERC20", MOCK_ERC20_ARGS))
        && out.result.value[WIOTA] == AddressOf(c0.nonce)
        && out.result.value[MOCK_ERC20] == AddressOf(c0.nonce + 1)
        && EndsWithDeployment(out.chain.log, |c0.log| + 2, c0.nonce + 2, deployer, out.result.value)
  {
    if Run(network, deployer, files, c0).result.Success? {
      RunTransactions(network, deployer, files, c0);
    }
    RunRecordsEntries(network, deployer, files, c0);
    forall k | k in DEPLOYED_KEYS
      ensures Run(network, deployer, files, c0).result.Success? ==>
        k in Run(network, deployer, files, c0).result.value &&
        CreatedIn(Run(network, deployer, files, c0).result.value[k], c0.nonce, Run(network, deployer, files, c0).chain.nonce)
    {
      RunDeploysFresh(network, deployer, files, c0, k);
    }
  }

  /** Running again on a persistent network after a successful run resumes
      from the document that run wrote, whatever other transactions the
      account sent in between: the second run deploys neither token and
      keeps both addresses, and gives each of the four exchange contracts an
      address different from the one the first run recorded. */
  lemma RunResumes(network: string, deployer: Address, files: map<string, Registry>, c0: ChainState, c1: ChainState)
    requires !IsEphemeral(network)
    requires Run(network, deployer, files, c0).result.Success?
    requires Extends(Run(network, deployer, files, c0).chain, c1)
    ensures var first := Run(network, deployer, files, c0);
      var second := Run(network, deployer, first.files, c1);
      && Start(network, first.files) == first.result.value
      && NoCreateOf(second.chain.log, |c1.log|, WIOTA)
      && NoCreateOf(second.chain.log, |c1.log|, MOCK_ERC20)
      && DEPLOYED_KEYS <= first.result.value.Keys
      && (second.result.Success? ==>
            && DEPLOYED_KEYS <= second.result.value.Keys
            && second.result.value[WIOTA] == first.result.value[WIOTA]
            && second.result.value[MOCK_ERC20] == first.result.value[MOCK_ERC20]
            && forall k :: k in CORE_KEYS ==> second.result.value[k] != first.result.value[k])
  {
    var first := Run(network, deployer, files, c0);
    RunRecordsEntries(network, deployer, files, c0);
    PersistThenLoad(files, network, first.result.value);
    RunReusesToken(network, deployer, first.files, c1, WIOTA);
    RunReusesToken(network, deployer, first.files, c1, MOCK_ERC20);
    RunRecordsEntries(network, deployer, first.files, c1);
    var second := Run(network, deployer, first.files, c1);
    if second.result.Success? {
      forall k | k in CORE_KEYS ensures second.result.value[k] != first.result.value[k] {
        RunDeploysFresh(network, deployer, files, c0, k);
        RunDeploysFresh(network, deployer, first.files, c1, k);
        var m :| c0.nonce <= m < first.chain.nonce && first.result.value[k] == AddressOf(m);
        CreatedInIsFresh(second.result.value[k], c1.nonce, second.chain.nonce, m);
      }
    }
  }
}
