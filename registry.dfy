/**
 * The address registry: logical contract name to deployed address, one JSON
 * document per network under the deployments directory. The document of the
 * ephemeral in-process network is never read or written.
 */
module Registry {
  import opened Wrappers
  import opened Evm

  /** Contents of one deployment document. */
  type Registry = map<string, Address>

  const HARDHAT: string := "hardhat"

  const WIOTA: string := "wIOTA"
  const MOCK_ERC20: string := "MockERC20"
  const LB_FACTORY: string := "LBFactory"
  const LB_PAIR: string := "LBPair"
  const LB_ROUTER: string := "LBRouter"
  const LB_QUOTER: string := "LBQuoter"

  /** The six entry names are pairwise different. */
  lemma KeysDistinct()
    ensures WIOTA != MOCK_ERC20 && WIOTA != LB_FACTORY && WIOTA != LB_PAIR && WIOTA != LB_ROUTER && WIOTA != LB_QUOTER
    ensures MOCK_ERC20 != LB_FACTORY && MOCK_ERC20 != LB_PAIR && MOCK_ERC20 != LB_ROUTER && MOCK_ERC20 != LB_QUOTER
    ensures LB_FACTORY != LB_PAIR && LB_FACTORY != LB_ROUTER && LB_FACTORY != LB_QUOTER
    ensures LB_PAIR != LB_ROUTER && LB_PAIR != LB_QUOTER && LB_ROUTER != LB_QUOTER
  {
    assert LB_ROUTER[2] != LB_QUOTER[2];
  }

  /** The network whose state vanishes with the process. */
  predicate IsEphemeral(network: string)
  {
    network == HARDHAT
  }

  /** Whether `reg[key]` is truthy in JavaScript: an absent key and an empty
      string are both falsy. */
  predicate Truthy(reg: Registry, key: string)
  {
    key in reg && reg[key] != ""
  }

  /** The deployment document of `network`, None when there is none. */
  function FileOf(files: map<string, Registry>, network: string): Option<Registry>
  {
    if network in files then Some(files[network]) else None
  }

  /** The registry a run starts from: empty on the ephemeral network or when
      no document exists, otherwise the document's contents. */
  function Load(network: string, file: Option<Registry>): (r: Registry)
    ensures IsEphemeral(network) || file.None? ==> r == map[]
    ensures !IsEphemeral(network) && file.Some? ==> r == file.value
  {
    if IsEphemeral(network) then map[]
    else if file.Some? then file.value
    else map[]
  }

  /** The deployment documents after a run that finished with `results`. */
  function Persist(files: map<string, Registry>, network: string, results: Registry): (r: map<string, Registry>)
    ensures IsEphemeral(network) ==> r == files
    ensures !IsEphemeral(network) ==> FileOf(r, network) == Some(results)
    ensures forall other :: other != network ==> FileOf(r, other) == FileOf(files, other)
  {
    if IsEphemeral(network) then files else files[network := results]
  }

  /** Writing a registry and loading it back on the same network gives the
      registry back on a persistent network, and nothing on the ephemeral one. */
  lemma PersistThenLoad(files: map<string, Registry>, network: string, results: Registry)
    ensures Load(network, FileOf(Persist(files, network, results), network))
         == if IsEphemeral(network) then map[] else results
  {
  }

  /** The check the liquidity scripts make before they use a registry: the
      document exists and names the wrapped native token, the mock token and
      the router. */
  predicate LiquidityReady(file: Option<Registry>)
  {
    && file.Some?
    && Truthy(file.value, WIOTA)
    && Truthy(file.value, MOCK_ERC20)
    && Truthy(file.value, LB_ROUTER)
  }

  /** The deployments directory. */
  class DeploymentStore {
    var files: map<string, Registry>

    constructor (files: map<string, Registry>)
      ensures this.files == files
    {
      this.files := files;
    }

    method Read(network: string) returns (file: Option<Registry>)
      ensures file == FileOf(files, network)
    {
      if network in files {
        file := Some(files[network]);
      } else {
        file := None;
      }
    }

    method Write(network: string, results: Registry)
      modifies this
      ensures files == old(files)[network := results]
    {
      files := files[network := results];
    }
  }
}
