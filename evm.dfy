/**
 * The external execution environment the deployment script talks to, seen
 * from the one account that deploys. Every contract creation and every
 * state-changing call is a transaction that uses up the account's next
 * nonce; the environment either mines it or reverts it. A created contract's
 * address is a function of the nonce it was created with, and different
 * nonces give different addresses.
 */
module Evm {
  import opened Wrappers

  type Address = string

  /** The placeholder the script passes for dependency slots it leaves unused. */
  const ZERO_ADDRESS: Address := "0x0000000000000000000000000000000000000000"

  /** A constructor or call argument. */
  datatype Arg = AddressArg(addr: Address) | UintArg(n: int) | StringArg(s: string) | BoolArg(b: bool)

  /** What a transaction asks for: deploy a contract, or call a function of one. */
  datatype Call =
    | Create(contract: string, args: seq<Arg>)
    | Invoke(target: Address, fn: string, args: seq<Arg>)

  /** A transaction as the environment records it. */
  datatype Tx = Mined(nonce: nat, call: Call) | Reverted(nonce: nat, call: Call)

  /** The environment's state: the account's next nonce, the transactions
      recorded so far, and the nonces whose transaction the environment will
      reject (the environment's own decision, opaque to the script). */
  datatype ChainState = ChainState(nonce: nat, log: seq<Tx>, rejects: set<nat>)

  predicate Accepts(c: ChainState)
  {
    c.nonce !in c.rejects
  }

  /** The environment after it has processed one more transaction. */
  function Submitted(c: ChainState, call: Call): ChainState
  {
    var tx := if Accepts(c) then Mined(c.nonce, call) else Reverted(c.nonce, call);
    ChainState(c.nonce + 1, c.log + [tx], c.rejects)
  }

  /** `c2` is `c1` after zero or more further transactions. */
  predicate Extends(c1: ChainState, c2: ChainState)
  {
    && c2.rejects == c1.rejects
    && |c1.log| <= |c2.log|
    && c2.log[..|c1.log|] == c1.log
    && c2.nonce == c1.nonce + (|c2.log| - |c1.log|)
  }

  lemma ExtendsTransitive(c1: ChainState, c2: ChainState, c3: ChainState)
    requires Extends(c1, c2) && Extends(c2, c3)
    ensures Extends(c1, c3)
  {
    assert c3.log[..|c1.log|] == c3.log[..|c2.log|][..|c1.log|];
  }

  /** A later environment has the same transactions at the positions an
      earlier one had recorded. */
  lemma ExtendsKeeps(c1: ChainState, c2: ChainState, i: nat)
    requires Extends(c1, c2) && i < |c1.log|
    ensures c2.log[i] == c1.log[i]
  {
    assert c2.log[i] == c2.log[..|c1.log|][i];
  }

  function HexDigit(d: nat): (c: char)
    requires d < 16
    ensures '0' <= c <= '9' || 'a' <= c <= 'f'
  {
    if d < 10 then (48 + d) as char else (87 + d) as char
  }

  /** Lower-case hexadecimal digits of `n`, without leading zeros. */
  function Hex(n: nat): (s: string)
    decreases n
  {
    if n < 16 then [HexDigit(n)] else Hex(n / 16) + [HexDigit(n % 16)]
  }

  /** The address of the contract created by the transaction with nonce `n`. */
  function AddressOf(n: nat): (a: Address)
  {
    "0x" + Hex(n)
  }

  lemma {:induction false} HexInjective(m: nat, n: nat)
    requires Hex(m) == Hex(n)
    ensures m == n
    decreases m
  {
    if m < 16 && n < 16 {
      assert HexDigit(m) == Hex(m)[0] == Hex(n)[0] == HexDigit(n);
    } else if m >= 16 && n >= 16 {
      var hm, hn := Hex(m), Hex(n);
      assert HexDigit(m % 16) == hm[|hm| - 1] == hn[|hn| - 1] == HexDigit(n % 16);
      assert Hex(m / 16) == hm[..|hm| - 1] == hn[..|hn| - 1] == Hex(n / 16);
      HexInjective(m / 16, n / 16);
    }
  }

  /** Contracts created with different nonces have different addresses. */
  lemma AddressOfInjective(m: nat, n: nat)
    requires AddressOf(m) == AddressOf(n)
    ensures m == n
  {
    assert Hex(m) == AddressOf(m)[2..] == AddressOf(n)[2..] == Hex(n);
    HexInjective(m, n);
  }

  /** `a` is the address of a contract created with a nonce in [lo, hi). */
  ghost predicate CreatedIn(a: Address, lo: nat, hi: nat)
  {
    exists n :: lo <= n < hi && a == AddressOf(n)
  }

  /** No transaction of `log` from position `from` on deploys `contract`. */
  predicate NoCreateOf(log: seq<Tx>, from: nat, contract: string)
  {
    forall i :: from <= i < |log| ==> !(log[i].call.Create? && log[i].call.contract == contract)
  }

  /** An address created with a nonce in [lo, hi) is none of the addresses
      created before `lo`. */
  lemma CreatedInIsFresh(a: Address, lo: nat, hi: nat, m: nat)
    requires CreatedIn(a, lo, hi) && m < lo
    ensures a != AddressOf(m)
  {
    var n :| lo <= n < hi && a == AddressOf(n);
    if a == AddressOf(m) {
      AddressOfInjective(n, m);
    }
  }

  /** The environment, as the script's remote calls change it. */
  class Chain {
    var nonce: nat
    var log: seq<Tx>
    const rejects: set<nat>

    function State(): ChainState
      reads this
    {
      ChainState(nonce, log, rejects)
    }

    constructor (startNonce: nat, rejects: set<nat>)
      ensures State() == ChainState(startNonce, [], rejects)
    {
      nonce := startNonce;
      log := [];
      this.rejects := rejects;
    }

    /** Deploys `contract` and waits for the deployment; the new contract's
        address, or None when the environment rejected it. */
    method Deploy(contract: string, args: seq<Arg>) returns (r: Option<Address>)
      modifies this
      ensures State() == Submitted(old(State()), Create(contract, args))
      ensures r == if Accepts(old(State())) then Some(AddressOf(old(nonce))) else None
    {
      var call := Create(contract, args);
      if nonce in rejects {
        log := log + [Reverted(nonce, call)];
        r := None;
      } else {
        log := log + [Mined(nonce, call)];
        r := Some(AddressOf(nonce));
      }
      nonce := nonce + 1;
    }

    /** Calls `fn` on the contract at `target` and waits for the receipt;
        false when the environment rejected the call. */
    method Transact(target: Address, fn: string, args: seq<Arg>) returns (ok: bool)
      modifies this
      ensures State() == Submitted(old(State()), Invoke(target, fn, args))
      ensures ok == Accepts(old(State()))
    {
      var call := Invoke(target, fn, args);
      ok := nonce !in rejects;
      log := log + [if ok then Mined(nonce, call) else Reverted(nonce, call)];
      nonce := nonce + 1;
    }
  }
}
