/** The execution engine as a tree of L2 blocks with a canonical head. */
module BlockTree {
  import opened Base
  import opened Types

  datatype L2Block = L2Block(
    info: BlockInfo,
    transactions: seq<Transaction>,
    mixHash: Hash,
    author: Bytes,
    gasLimit: nat)

  type Tree = map<Hash, L2Block>

  datatype ForkchoiceState = ForkchoiceState(head: Hash, safe: Hash, finalized: Hash)

  /** A forkchoice the engine was sent, alone or with attributes from which it built a block. */
  datatype Request = Update(fc: ForkchoiceState) | Build(fc: ForkchoiceState, block: L2Block)

  /** The engine's blocks, its canonical head and, for the record, what it was sent. */
  datatype Engine = Engine(blocks: Tree, canonical: Hash, requests: seq<Request>) {

    function Number(hash: Hash): nat
      requires hash in blocks
    {
      blocks[hash].info.number
    }

    /** The block a payload built on head from the attributes becomes, under the given hash. */
    function Payload(head: Hash, attributes: PayloadAttributes, hash: Hash): L2Block
      requires head in blocks
    {
      L2Block(
        BlockInfo(hash, Number(head) + 1, head, attributes.timestamp),
        attributes.transactions, attributes.prevRandao, attributes.suggestedFeeRecipient, attributes.gasLimit)
    }

    /** A block the engine can take: it extends a known block, and its hash is its own. */
    predicate CanPush(block: L2Block) {
      && block.info.parentHash in blocks
      && block.info.number == Number(block.info.parentHash) + 1
      && OwnHash(block)
    }

    /** Hashes do not collide: the hash of the block names no other block, even as a parent. */
    predicate OwnHash(block: L2Block) {
      && (block.info.hash in blocks ==> blocks[block.info.hash] == block)
      && (forall h | h in blocks :: blocks[h].info.parentHash == block.info.hash ==>
                                      blocks[h].info.number == block.info.number + 1)
    }

    function Pushed(block: L2Block): Engine {
      this.(blocks := blocks[block.info.hash := block])
    }

    /** An accepted forkchoice makes its head canonical. */
    function Accepted(fc: ForkchoiceState): Engine {
      this.(canonical := fc.head, requests := requests + [Update(fc)])
    }

    /** A rejected forkchoice changes nothing. */
    function Rejected(fc: ForkchoiceState): Engine {
      this.(requests := requests + [Update(fc)])
    }

    function Built(fc: ForkchoiceState, block: L2Block): Engine {
      this.(canonical := fc.head, requests := requests + [Build(fc, block)])
    }

    /** The canonical block with the given number. */
    function BlockAt(number: int): Option<L2Block> {
      if number < 0 then None
      else
        match AncestorAt(blocks, canonical, number)
        case Some(hash) => if hash in blocks then Some(blocks[hash]) else None
        case None => None
    }
  }

  /** Every block is stored under its hash and is one above its parent, if that is known. */
  ghost predicate WellFormed(t: Tree) {
    forall h :: h in t ==>
      && t[h].info.hash == h
      && (t[h].info.parentHash in t ==> t[t[h].info.parentHash].info.number + 1 == t[h].info.number)
  }

  /** The block with the given number on the branch that ends in h. */
  function AncestorAt(t: Tree, h: Hash, number: nat): Option<Hash>
    decreases if h in t then t[h].info.number else 0
  {
    if h !in t || t[h].info.number < number then None
    else if t[h].info.number == number then Some(h)
    else
      var parent := t[h].info.parentHash;
      if parent in t && t[parent].info.number < t[h].info.number then AncestorAt(t, parent, number) else None
  }

  /** a is b or one of its ancestors. */
  predicate IsAncestor(t: Tree, a: Hash, b: Hash) {
    a in t && AncestorAt(t, b, t[a].info.number) == Some(a)
  }

  /** The block is in the tree with this very header. */
  predicate InTree(t: Tree, info: BlockInfo) {
    info.hash in t && t[info.hash].info == info
  }

  lemma {:induction false} AncestorFacts(t: Tree, h: Hash, n: nat)
    requires WellFormed(t) && AncestorAt(t, h, n).Some?
    ensures var a := AncestorAt(t, h, n).value;
            a in t && t[a].info.number == n && h in t && n <= t[h].info.number
    decreases if h in t then t[h].info.number else 0
  {
    if t[h].info.number != n {
      AncestorFacts(t, t[h].info.parentHash, n);
    }
  }

  /** Branches compose: looking further down goes through every block on the way. */
  lemma {:induction false} AncestorCompose(t: Tree, h: Hash, m: nat, n: nat)
    requires WellFormed(t) && n <= m && AncestorAt(t, h, m).Some?
    ensures AncestorAt(t, h, n) == AncestorAt(t, AncestorAt(t, h, m).value, n)
    decreases if h in t then t[h].info.number else 0
  {
    if t[h].info.number != m {
      AncestorCompose(t, t[h].info.parentHash, m, n);
      AncestorFacts(t, t[h].info.parentHash, m);
    }
  }

  lemma AncestorTransitive(t: Tree, a: Hash, b: Hash, c: Hash)
    requires WellFormed(t) && IsAncestor(t, a, b) && IsAncestor(t, b, c)
    ensures IsAncestor(t, a, c)
  {
    AncestorFacts(t, b, t[a].info.number);
    AncestorCompose(t, c, t[b].info.number, t[a].info.number);
  }

  /** Two blocks of one branch are ordered by their numbers. */
  lemma AncestorsOrdered(t: Tree, a: Hash, b: Hash, c: Hash)
    requires WellFormed(t) && IsAncestor(t, a, c) && IsAncestor(t, b, c)
    requires t[a].info.number <= t[b].info.number
    ensures IsAncestor(t, a, b)
  {
    AncestorCompose(t, c, t[b].info.number, t[a].info.number);
  }

  /** A block known on a branch means that every later number of the branch is known too. */
  lemma {:induction false} AncestorAbove(t: Tree, h: Hash, n: nat, m: nat)
    requires WellFormed(t) && AncestorAt(t, h, n).Some? && n <= m <= t[h].info.number
    ensures AncestorAt(t, h, m).Some?
    decreases if h in t then t[h].info.number else 0
  {
    if t[h].info.number != m {
      AncestorAbove(t, t[h].info.parentHash, n, m);
    }
  }

  /** The block one above a on a branch through a has a as its parent. */
  lemma ChildOnBranch(t: Tree, a: Hash, c: Hash, b: Hash)
    requires WellFormed(t) && IsAncestor(t, a, c) && AncestorAt(t, c, t[a].info.number + 1) == Some(b)
    ensures b in t && t[b].info.parentHash == a && IsAncestor(t, b, c) && IsAncestor(t, a, b)
  {
    var n := t[a].info.number;
    AncestorFacts(t, c, n + 1);
    AncestorCompose(t, c, n + 1, n);
    AncestorFacts(t, b, n);
  }

  lemma ChildIsDescendant(t: Tree, a: Hash, b: Hash)
    requires WellFormed(t) && a in t && b in t && t[b].info.parentHash == a
    ensures IsAncestor(t, a, b)
  {
  }

  ghost predicate Extends(t: Tree, t': Tree) {
    forall h :: h in t ==> h in t' && t'[h] == t[h]
  }

  /** New blocks leave every known branch as it is. */
  lemma {:induction false} AncestorExtends(t: Tree, t': Tree, h: Hash, n: nat)
    requires WellFormed(t) && Extends(t, t') && AncestorAt(t, h, n).Some?
    ensures AncestorAt(t', h, n) == AncestorAt(t, h, n)
    decreases if h in t then t[h].info.number else 0
  {
    if t[h].info.number != n {
      AncestorExtends(t, t', t[h].info.parentHash, n);
    }
  }

  lemma IsAncestorExtends(t: Tree, t': Tree, a: Hash, b: Hash)
    requires WellFormed(t) && Extends(t, t') && IsAncestor(t, a, b)
    ensures IsAncestor(t', a, b)
  {
    AncestorExtends(t, t', b, t[a].info.number);
  }

  /** A block the engine can take keeps the tree well formed. */
  lemma PushKeeps(e: Engine, block: L2Block)
    requires WellFormed(e.blocks) && e.CanPush(block)
    ensures WellFormed(e.Pushed(block).blocks) && Extends(e.blocks, e.Pushed(block).blocks)
  {
  }
}
