# Liquidity-book deployment orchestrator, modelled in Dafny

This project models `scripts/deploy.ts`, the script that bootstraps a liquidity-book exchange on a network. The model has two parts.

- **The preset catalog (`BipsConfig`).** This is a closed table from a bin step to the fee and volatility parameters of a `FactoryPreset`. `getPresetList` lists the seven supported bin steps. `getPreset` returns a row for each of them and fails for any other value.
- **The address registry and the ten provisioning steps of `main`.** The registry maps a contract name to an address, and there is one JSON document per network.
  - On the ephemeral `hardhat` network the registry starts empty. Elsewhere it is loaded from the network's document when one exists.
  - `wIOTA` and `MockERC20` are reused when their entry is truthy. Otherwise they are deployed and recorded.
  - `LBFactory`, `LBPair`, `LBRouter` and `LBQuoter` are deployed on every run and their entries overwritten.
  - The new factory then gets four transactions: the pair implementation is set, the bin-step-20 preset is registered, the mock token is whitelisted, and the wIOTA/MockERC20 pair is created.
  - Finally the registry is written back, except on `hardhat`.

Modules:

- `Wrappers`: `Option` and `Result`.
- `Presets`: the catalog.
- `Evm`: the external environment.
  - The deploying account's nonce, the log of mined and reverted transactions, and the set of nonces the environment will reject.
  - A `Chain` class whose `Deploy` and `Transact` methods are the script's remote calls.
  - A created contract's address is a function of its nonce, and that function is proved injective.
- `Registry`: the registry and its loading and writing.
  - The document directory is a `DeploymentStore` class.
  - JavaScript truthiness of an entry is modelled as `Truthy`.
- `Pipeline`: the ten steps as data, plus `Exec`, a reference semantics with general lemmas about it.
  - Step kinds: resolve (reuse or deploy), redeploy, transact, register a preset.
  - The lemmas cover what a run writes, what it keeps, when it can fail, and which addresses are fresh.
- `Deploy`: the script itself.
  - The concrete step lists and `Run`, which is the whole run as a function.
  - The imperative `Deploy` method, which follows `main` step by step, in the same order. It updates a local registry, calls the chain and the document store, and is proved to end in exactly the state `Run` describes. Where `main` reuses a local variable or the factory's contract handle, the model reads the same address back from the registry.
- `DeployProperties`: what a run guarantees, stated over `Run`.

## What the script does not promise

In two places the script does less than an idempotent, resumable deployment would need. The model follows the script in both.

- **Overwriting entries.** A registry that treated each recorded address as authoritative would keep every populated entry on a later run. The script keeps only the two token entries. It overwrites `LBFactory`, `LBPair`, `LBRouter` and `LBQuoter` on every run (lines 186-239). `RunDeploysFresh` and `RunResumes` state this overwrite.
- **Persistence.** An incrementally persisted design would write the registry after each step, so that a failed run resumes from its last completed step. The script writes the document once, after the last step (lines 280-286). A failed run leaves the document untouched (`RunPersistence`), so every address deployed before the failure is lost to the next run.

## Model

| member | source | states |
|---|---|---|
| Presets.PresetList | scripts/deploy.ts:21-23 | the list has seven strictly increasing positive bin steps |
| Presets.GetPreset | scripts/deploy.ts:24-119 | succeeds exactly on the bin steps of the list, with a row keyed by that bin step; every row has reduction factor 5000, protocol share 0, sample lifetime 120 and is closed, and is well formed (filter period below decay period, no negative field); any other bin step fails with the "no preset" error for that bin step |
| Presets.PresetListIsCovered | scripts/deploy.ts:21-116 | looking up any element of the list succeeds and returns the row for that very bin step |
| Presets.PresetsAreDistinct | scripts/deploy.ts:26-116 | two lookups that return the same row were made with the same bin step |
| Evm.Chain.Deploy | scripts/deploy.ts:160-164 | a deployment uses up the next nonce and is logged; if accepted it returns the address derived from that nonce, if rejected it returns nothing |
| Evm.Chain.Transact | scripts/deploy.ts:242-243 | a call uses up the next nonce and is logged as mined or reverted; it reports whether the environment accepted it |
| Evm.AddressOfInjective | scripts/deploy.ts:195 | contracts created with different nonces have different addresses |
| Registry.Truthy | scripts/deploy.ts:157-173 | an entry counts as present exactly when the key exists and its address is not the empty string, which is what JavaScript's `!wIOTAAddress` and `!mockERC20Address` test |
| Registry.LiquidityReady | scripts/mint.ts:26-34 | a document is usable by the liquidity scripts exactly when it exists and has truthy `wIOTA`, `MockERC20` and `LBRouter` entries |
| Registry.Load | scripts/deploy.ts:136-146 | the starting registry is empty on `hardhat` or when the network has no document, and is the document's contents otherwise |
| Registry.Persist | scripts/deploy.ts:280-286 | on `hardhat` no document changes; otherwise the network's document becomes the run's registry; no other network's document changes |
| Registry.PersistThenLoad | scripts/deploy.ts:280-286 | loading after writing gives back the written registry on a persistent network, and an empty registry on `hardhat` |
| Registry.DeploymentStore.Read | scripts/deploy.ts:143-145 | reading gives the network's document, or nothing when it does not exist |
| Registry.DeploymentStore.Write | scripts/deploy.ts:282 | writing replaces the network's document and leaves the others |
| Pipeline.Eval | scripts/deploy.ts:210-217 | arguments evaluate exactly when every registry reference among them is present; each result is the literal or the recorded address at the same position; otherwise the error names a missing referenced key |
| Pipeline.PresetArgs | scripts/deploy.ts:250-260 | the nine `setPreset` arguments are the row's fields in the call's order; `sampleLifetime` is not among them |
| Pipeline.Apply | scripts/deploy.ts:156-278 | one step: a resolve step keeps a truthy entry and otherwise deploys and records; a redeploy step always deploys and records; a transaction step calls the contract recorded under its target; a preset step looks the bin step up in the catalog and sends `setPreset`; a rejected transaction or a failed lookup stops with that error |
| Pipeline.Exec | scripts/deploy.ts:156-292 | the steps run in order, each on the state the previous one left, and the run stops at the first error, which `main`'s caller reports |
| Pipeline.ApplyFacts | scripts/deploy.ts:156-278 | one step only extends the environment, by at most one transaction of the step's own kind; a successful step writes exactly the key it produces, with a truthy value, and leaves all other entries; a missing entry is reported only if the step reads it; an unknown preset only for a preset step; a rejection is the reverted transaction appended to the log |
| Pipeline.ExecFacts | scripts/deploy.ts:149-239 | a run of steps only extends the environment; if it succeeds, the registry's keys are the starting keys plus the produced keys, every produced entry is truthy, and every other starting entry is unchanged |
| Pipeline.ExecWellOrdered | scripts/deploy.ts:186-276 | if every key a step reads is present at the start or written earlier, and every preset is in the catalog, the run can only stop because the environment rejected a transaction |
| Pipeline.ExecStopsAtRejection | scripts/deploy.ts:289-292 | a successful run had all its transactions mined; a rejected run stops at the rejection, which is the last transaction logged and the one the error names, and everything before it was mined |
| Pipeline.ExecKeepsResolved | scripts/deploy.ts:157-169 | a key that is truthy and never redeployed keeps its address through the run, and no transaction of the run deploys the contract resolved under it |
| Pipeline.ExecFresh | scripts/deploy.ts:186-239 | a key that is redeployed, or resolved while not truthy, ends up holding the address of a contract created during the run |
| Pipeline.ExecReuses | scripts/deploy.ts:167-169 | a resolve step whose entry is truthy does nothing |
| Pipeline.ExecDeploys | scripts/deploy.ts:158-166 | a deploying step either records the new contract's address and goes on, or stops the run with the rejected creation |
| Pipeline.ExecTransacts | scripts/deploy.ts:242-277 | a transaction step on a recorded contract sends the call with its evaluated arguments and goes on with the registry unchanged, or stops at its rejection |
| Pipeline.ExecRegistersPreset | scripts/deploy.ts:249-261 | a preset step for a catalog bin step sends `setPreset` with that row's fields and goes on, or stops at its rejection |
| Deploy.TokenArgs | scripts/deploy.ts:161-176 | wIOTA is constructed without arguments, and MockERC20 with its name, symbol and 18 decimals |
| Deploy.CoreArgs | scripts/deploy.ts:188-234 | the factory is constructed with the deployer as fee recipient and owner and the flash-loan fee; the pair template with the factory; the router with the factory, four zero addresses and wIOTA; the quoter with the factory and the router in their slots and zero addresses elsewhere |
| Deploy.WiringArgs | scripts/deploy.ts:242-276 | the factory is given the pair template, whitelists MockERC20, and creates the wIOTA/MockERC20 pair at active id 8373869 and bin step 20 |
| Deploy.ResolveTokens | scripts/deploy.ts:156-184 | the two token steps of `main` end where the reference semantics of the token steps ends, with the same registry or the same error |
| Deploy.DeployExchange | scripts/deploy.ts:186-206 | the factory and pair-template steps end where their reference semantics ends; on success the registry gains exactly their two keys |
| Deploy.DeployPeriphery | scripts/deploy.ts:208-239 | the router and quoter steps end where their reference semantics ends |
| Deploy.DeployCore | scripts/deploy.ts:186-239 | the four exchange-contract steps end where their reference semantics ends |
| Deploy.WireFactory | scripts/deploy.ts:241-278 | the four factory transactions end where their reference semantics ends |
| Deploy.TokenPhaseShape | scripts/deploy.ts:156-184 | neither token step reads a registry entry; together they write exactly the two token keys and redeploy nothing |
| Deploy.CorePhaseShape | scripts/deploy.ts:186-239 | the exchange-contract steps read only `wIOTA` and entries written by their own earlier steps, and write and redeploy exactly the four exchange keys |
| Deploy.WiringPhaseShape | scripts/deploy.ts:241-278 | the wiring steps read only the six entries and write nothing |
| Deploy.Run | scripts/deploy.ts:123-287 | `main` as a function: load the registry, run the ten steps, and on success write the registry unless the network is `hardhat`; a failure writes nothing |
| Deploy.Deploy | scripts/deploy.ts:123-287 | `main` returns the result, leaves the environment and leaves the documents exactly as `Run` describes for the same network, deployer, documents and environment |
| DeployProperties.PipelineKeys | scripts/deploy.ts:156-239 | the ten steps write exactly the six keys and redeploy exactly the four exchange keys |
| DeployProperties.PipelineOrdered | scripts/deploy.ts:186-276 | every entry a step reads is written by an earlier step |
| DeployProperties.PipelineDeploysTokensOnce | scripts/deploy.ts:156-184 | the only preset registered is in the catalog, and each token contract is deployed only by the step that resolves it under its own key |
| DeployProperties.TokenTailEffect | scripts/deploy.ts:171-184 | a reused mock token changes nothing; otherwise a successful step mined `MockERC20("MockERC20", "mERC20", 18)` and recorded its address |
| DeployProperties.TokenEffect | scripts/deploy.ts:156-184 | a successful token phase mined one creation per token without a truthy entry (`wIOTA()` first, then `MockERC20("MockERC20", "mERC20", 18)`) with consecutive nonces, recorded their addresses, submitted nothing for a reused token and kept its entry |
| DeployProperties.CoreHeadEffect | scripts/deploy.ts:186-206 | when the exchange phase succeeds, the factory and pair template were both mined, and the phase continues from the registry holding their addresses |
| DeployProperties.CoreTailEffect | scripts/deploy.ts:208-239 | when the router and quoter steps succeed, they mined the router (built with the factory and wIOTA) and then the quoter (built with the factory and that router), with consecutive nonces, and recorded exactly those two addresses |
| DeployProperties.CoreEffect | scripts/deploy.ts:186-239 | a successful exchange phase mined exactly four creations with consecutive nonces in dependency order; each was built from the addresses created before it; the registry gains exactly those four addresses |
| DeployProperties.WiringEffect | scripts/deploy.ts:241-278 | a successful wiring phase mined exactly four factory calls in order (pair implementation, the bin-step-20 preset, whitelist MockERC20, create the pair at id 8373869 and bin step 20) and left the registry unchanged |
| DeployProperties.RunPhases | scripts/deploy.ts:156-278 | a successful run is the token phase, then the exchange phase, then the wiring phase, each succeeding, with wIOTA and MockERC20 present after the first |
| DeployProperties.RunFailsOnlyOnRejection | scripts/deploy.ts:289-292 | a run only extends the environment; it fails only because the environment rejected a transaction, never for a missing entry or an unknown preset; the failure names the reverted last transaction and everything before it was mined |
| DeployProperties.RunRecordsEntries | scripts/deploy.ts:149-239 | a successful run's registry has the loaded keys plus the six keys, all six truthy, and every other loaded entry unchanged |
| DeployProperties.RunPersistence | scripts/deploy.ts:280-286 | on `hardhat`, or after a failure, no document changes; a successful run on another network writes its registry as the network's document, and that document passes the downstream scripts' presence check for wIOTA, MockERC20 and LBRouter |
| DeployProperties.RunReusesToken | scripts/deploy.ts:157-184 | a token with a truthy loaded entry is never deployed during the run, and a successful run keeps its address |
| DeployProperties.RunDeploysFresh | scripts/deploy.ts:186-239 | each exchange contract, whatever was loaded, and each token without a truthy entry, ends up at the address of a contract created during the run |
| DeployProperties.PhasesKeepTokens | scripts/deploy.ts:186-278 | the exchange and wiring phases only append to the log and leave both token entries unchanged |
| DeployProperties.PhasesTransactions | scripts/deploy.ts:186-278 | after the token phase, the exchange and wiring phases log exactly eight mined transactions from the next nonce on, as described by `EndsWithDeployment` |
| DeployProperties.RunTransactions | scripts/deploy.ts:156-278 | a successful run submits exactly the creations of the tokens it does not reuse, then the eight transactions: the four creations in dependency order, then the four factory calls, with the preset and the whitelisting before the pair creation; all are mined with consecutive nonces |
| DeployProperties.RunFromScratch | scripts/deploy.ts:136-278 | a successful run from an empty registry submits exactly ten transactions, all mined in order: `wIOTA()`, `MockERC20("MockERC20", "mERC20", 18)`, then the eight exchange transactions. It records exactly the six keys, each the address of a contract it created |
| DeployProperties.RunResumes | scripts/deploy.ts:136-286 | a second run on a persistent network, after any further transactions from the account, starts from the document the first run wrote; it deploys neither token and keeps both addresses; it gives each exchange contract an address different from the first run's |

## Left out

- Remote calls are abstracted. `ethers` contract factories, deployments and transactions become `Chain.Deploy` and `Chain.Transact`. Confirmation waiting is folded into them: a call is mined or reverted as the environment decides, through a set of rejected nonces.
- A rejected call always uses up a nonce and is logged. A call that fails before it is broadcast is not distinguished.
- A missing contract artifact in `getContractFactory` is not modelled.
- Addresses are `"0x"` followed by the hexadecimal nonce, not the hash of sender and nonce. The proofs use only the fact that different nonces give different addresses.
- The deploying account (`ethers.getSigners`) and the network name are parameters.
- File handling is abstracted. The documents are a map from network name to registry, and a missing document is `None`.
  - Creating the `deployments` directory (lines 139-141) is not modelled.
  - Paths, `JSON.parse` and `JSON.stringify` are not modelled. An unparseable document and registry values that are not strings are out of scope.
  - A failing `readFileSync` or `writeFileSync` is out of scope.
- Console logging and the `process.exitCode` handling (lines 289-292) are not modelled. A failed run is a `Failure` result.
- The commented-out loop over all presets (lines 247-248 and 263) is not modelled. Only bin step 20 is registered, as in the code.
- `sampleLifetime` is not passed to `setPreset`, as in the code (lines 250-260). It appears only in the catalog row.
- Numbers are unbounded integers. JavaScript `number` values are doubles, but every constant of the catalog and the script is a small integer. The `bigint` flash-loan fee is passed through unchanged.
- `scripts/mint.ts` and `scripts/removeLiquidity.ts` are not part of this model. Only their check that `wIOTA`, `MockERC20` and `LBRouter` are present (mint.ts lines 30-34, removeLiquidity.ts lines 29-33) is modelled, as `LiquidityReady`.
- `hardhat.config.ts` is not part of this model. It holds network endpoints and credentials, and no logic.
