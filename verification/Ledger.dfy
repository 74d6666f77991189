/** The node's ledger: one chain of state blocks per account.
    A hash is the block it names, so equal hashes mean equal blocks, and the
    work is not part of what is hashed. */
module Ledger {

  type Address = string

  /** What a block does: spend to an account, or take in the send block `source`. */
  datatype Link = ToAccount(destination: Address) | FromBlock(source: Hash)

  /** The signed part of a state block. */
  datatype Body = Body(account: Address, previous: Hash, balance: nat, link: Link)

  datatype Hash = Zero | HashOf(body: Body)

  /** A proof of work; `ok` is whether it meets the threshold for its block. */
  datatype Work = Work(nonce: nat, ok: bool)

  /** The block JSON that is handed to the node. */
  datatype Block = Block(body: Body, work: Work)

  type Chains = map<Address, seq<Body>>

  function Chain(chains: Chains, a: Address): seq<Body> {
    if a in chains then chains[a] else []
  }

  /** The hash the block at position `i` has to name as its predecessor. */
  function Before(chain: seq<Body>, i: nat): Hash
    requires i <= |chain|
  {
    if i == 0 then Zero else HashOf(chain[i - 1])
  }

  function Frontier(chains: Chains, a: Address): Hash {
    Before(Chain(chains, a), |Chain(chains, a)|)
  }

  /** The balance an account has once the block `h` is its newest. */
  function BalanceAt(h: Hash): nat {
    match h
    case Zero => 0
    case HashOf(b) => b.balance
  }

  predicate OnLedger(chains: Chains, h: Hash) {
    h.HashOf? && h.body in Chain(chains, h.body.account)
  }

  /** A frontier some node may report for `a`: the newest block or, from a lagging replica, an older one. */
  predicate Reported(chains: Chains, a: Address, h: Hash) {
    h == Zero || (h.body.account == a && OnLedger(chains, h))
  }

  /** The node's acceptance rule. */
  predicate Accepts(chains: Chains, b: Block) {
    b.work.ok && b.body.previous == Frontier(chains, b.body.account)
  }

  function Append(chains: Chains, b: Body): Chains {
    chains[b.account := Chain(chains, b.account) + [b]]
  }

  /** Every block names its predecessor and sits in its own account's chain. */
  ghost predicate ChainLinked(a: Address, chain: seq<Body>) {
    && (forall i | 0 <= i < |chain| :: chain[i].account == a)
    && (forall i {:trigger Before(chain, i)} | 0 <= i < |chain| :: chain[i].previous == Before(chain, i))
  }

  ghost predicate Linked(chains: Chains) {
    forall a | a in chains :: ChainLinked(a, chains[a])
  }

  /** Number of blocks from the start of the chain up to `h`. */
  function Height(h: Hash): nat {
    match h
    case Zero => 0
    case HashOf(b) => 1 + Height(b.previous)
  }

  lemma {:induction false} HeightIsPosition(a: Address, chain: seq<Body>, i: nat)
    requires ChainLinked(a, chain) && i < |chain|
    ensures Height(HashOf(chain[i])) == i + 1
  {
    assert chain[i].previous == Before(chain, i);
    if i > 0 {
      HeightIsPosition(a, chain, i - 1);
    }
  }

  /** No block occurs twice on the ledger. */
  lemma BlockOccursOnce(chains: Chains, a: Address, i: nat, a': Address, j: nat)
    requires Linked(chains) && a in chains && i < |chains[a]| && a' in chains && j < |chains[a']|
    requires chains[a][i] == chains[a'][j]
    ensures a == a' && i == j
  {
    HeightIsPosition(a, chains[a], i);
    HeightIsPosition(a', chains[a'], j);
  }

  lemma ExtendLinked(a: Address, chain: seq<Body>, b: Body)
    requires ChainLinked(a, chain) && b.account == a && b.previous == Before(chain, |chain|)
    ensures ChainLinked(a, chain + [b])
  {
    forall i | 0 <= i < |chain| + 1
      ensures (chain + [b])[i].account == a && (chain + [b])[i].previous == Before(chain + [b], i)
    {
      if i < |chain| {
        assert chain[i].previous == Before(chain, i);
      }
    }
  }

  lemma AppendKeepsLinked(chains: Chains, b: Body)
    requires Linked(chains) && b.previous == Frontier(chains, b.account)
    ensures Linked(Append(chains, b))
  {
    ExtendLinked(b.account, Chain(chains, b.account), b);
  }

  lemma AppendGrows(chains: Chains, b: Body, h: Hash)
    ensures OnLedger(Append(chains, b), h) <==> OnLedger(chains, h) || h == HashOf(b)
  {
  }
}
