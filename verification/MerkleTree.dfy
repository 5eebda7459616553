/** The sparse Merkle tree as a function of its leaves: hashing, the dense tree,
    folding a branch, and what two branches with one root have in common. */
module MerkleTree {
  import opened Prelude

  const DEPTH := 64

  datatype Leaf = Leaf(keyHash: Digest, valueHash: Digest)

  type Leaves = map<U64, Leaf>

  // ---------------------------------------------------------------- hashing

  function LeafPreimage(l: Leaf): Bytes {
    [0x00] + l.keyHash + l.valueHash
  }

  function LeafHash(sha: Hash, l: Leaf): Digest {
    sha(LeafPreimage(l))
  }

  function InnerPreimage(left: Digest, right: Digest): Bytes {
    [0x01] + left + right
  }

  function InnerHash(sha: Hash, left: Digest, right: Digest): Digest {
    if left == EMPTY && right == EMPTY then EMPTY else sha(InnerPreimage(left, right))
  }

  function KeyIndex(keyHash: Digest): U64 {
    U64FromBytes(keyHash[..8])
  }

  /** The slot of a key: the first eight bytes of its hash. */
  function Slot(sha: Hash, key: Bytes): U64 {
    KeyIndex(sha(key))
  }

  // ---------------------------------------------------------------- 64-bit index arithmetic

  function Pow2(n: nat): (r: nat)
    ensures r >= 1
  {
    if n == 0 then 1 else 2 * Pow2(n - 1)
  }

  lemma Pow2Of64()
    ensures Pow2(64) == 0x1_0000_0000_0000_0000
  {
    Pow2Sum(8, 8);
    Pow2Sum(16, 16);
    Pow2Sum(32, 32);
    assert Pow2(8) == 256;
  }

  lemma {:induction false} Pow2Sum(a: nat, b: nat)
    ensures Pow2(a + b) == Pow2(a) * Pow2(b)
  {
    if a > 0 {
      Pow2Sum(a - 1, b);
    }
  }

  /** `i << 1` on 64 bits, losing the top bit. */
  function Shl1(i: U64): U64 {
    (2 * i) % 0x1_0000_0000_0000_0000
  }

  /** `i >> 1`. */
  function Shr1(i: U64): U64 {
    i / 2
  }

  /** `i >> n`. */
  function Shr(i: U64, n: nat): U64
    decreases n
  {
    if n == 0 then i else Shr(Shr1(i), n - 1)
  }

  lemma {:induction false} ShiftedOut(i: U64, n: nat)
    requires i < Pow2(n)
    ensures Shr(i, n) == 0
    decreases n
  {
    if n > 0 {
      ShiftedOut(Shr1(i), n - 1);
    }
  }

  /** `i | 1`. */
  function Or1(i: U64): U64 {
    if i % 2 == 0 then i + 1 else i
  }

  /** `i ^ 1`: the other child of the same parent. */
  function Xor1(i: U64): U64 {
    if i % 2 == 0 then i + 1 else i - 1
  }

  // ---------------------------------------------------------------- the dense tree

  /** Node `i` of height `h` in the full binary tree over all slots. (The hash function is
      part of the measure only to keep the verifier from unfolding concrete trees.) */
  function Node(sha: Hash, leaves: Leaves, h: nat, i: nat): Digest
    decreases h, sha
  {
    if h == 0 then
      if i in leaves then LeafHash(sha, leaves[i]) else EMPTY
    else
      InnerHash(sha, Node(sha, leaves, h - 1, 2 * i), Node(sha, leaves, h - 1, 2 * i + 1))
  }

  function TreeRoot(sha: Hash, leaves: Leaves): Digest {
    Node(sha, leaves, DEPTH, 0)
  }

  lemma {:induction false} NodeOfEmptyTree(sha: Hash, h: nat, i: nat)
    ensures Node(sha, map[], h, i) == EMPTY
  {
    if h > 0 {
      NodeOfEmptyTree(sha, h - 1, 2 * i);
      NodeOfEmptyTree(sha, h - 1, 2 * i + 1);
    }
  }

  // ---------------------------------------------------------------- branches

  /** One level up: the node is a left child exactly when its index is even. */
  function Parent(sha: Hash, i: U64, node: Digest, sibling: Digest): Digest {
    if i % 2 == 0 then InnerHash(sha, node, sibling) else InnerHash(sha, sibling, node)
  }

  function Fold(sha: Hash, i: U64, node: Digest, siblings: seq<Digest>): Digest
    decreases |siblings|
  {
    if |siblings| == 0 then node
    else Fold(sha, Shr1(i), Parent(sha, i, node, siblings[0]), siblings[1..])
  }

  /** The siblings, bottom up, on the way from node `i` of height `h` to height `top`. */
  function TreeSiblings(sha: Hash, leaves: Leaves, h: nat, i: U64, top: nat): (r: seq<Digest>)
    requires h <= top
    ensures |r| == top - h
    decreases top - h
  {
    if h == top then [] else
    [Node(sha, leaves, h, Xor1(i))] + TreeSiblings(sha, leaves, h + 1, Shr1(i), top)
  }

  lemma NodeAboveSiblings(sha: Hash, leaves: Leaves, h: nat, i: U64)
    ensures Parent(sha, i, Node(sha, leaves, h, i), Node(sha, leaves, h, Xor1(i))) == Node(sha, leaves, h + 1, Shr1(i))
  {
    assert 2 * Shr1(i) == if i % 2 == 0 then i else Xor1(i);
    assert 2 * Shr1(i) + 1 == if i % 2 == 0 then Xor1(i) else i;
  }

  lemma {:induction false} BranchFoldsToNode(sha: Hash, leaves: Leaves, h: nat, i: U64, top: nat)
    requires h <= top
    ensures Fold(sha, i, Node(sha, leaves, h, i), TreeSiblings(sha, leaves, h, i, top))
         == Node(sha, leaves, top, Shr(i, top - h))
    decreases top - h
  {
    if h < top {
      var sibs := TreeSiblings(sha, leaves, h, i, top);
      assert sibs[1..] == TreeSiblings(sha, leaves, h + 1, Shr1(i), top);
      NodeAboveSiblings(sha, leaves, h, i);
      BranchFoldsToNode(sha, leaves, h + 1, Shr1(i), top);
    }
  }

  /** Every branch of the tree folds to its root. */
  lemma BranchFoldsToRoot(sha: Hash, leaves: Leaves, i: U64)
    ensures Fold(sha, i, Node(sha, leaves, 0, i), TreeSiblings(sha, leaves, 0, i, DEPTH)) == TreeRoot(sha, leaves)
  {
    BranchFoldsToNode(sha, leaves, 0, i, DEPTH);
    Pow2Of64();
    ShiftedOut(i, DEPTH);
  }

  // ---------------------------------------------------------------- extracting evidence

  /** Equal inner hashes of different children, allowing for the empty-pair shortcut. */
  function InnerEvidence(sha: Hash, l: Digest, r: Digest, l': Digest, r': Digest): (e: Evidence)
    requires l != l' || r != r'
    requires InnerHash(sha, l, r) == InnerHash(sha, l', r')
    ensures Breaks(sha, e)
  {
    if l == EMPTY && r == EMPTY then ZeroPreimage(InnerPreimage(l', r'))
    else if l' == EMPTY && r' == EMPTY then ZeroPreimage(InnerPreimage(l, r))
    else
      var a, b := InnerPreimage(l, r), InnerPreimage(l', r');
      assert a[1..33] == l && b[1..33] == l' && a[33..] == r && b[33..] == r';
      Collision(a, b)
  }

  /** Two branches of one slot with equal roots but different bottoms: walking up from
      the bottom, the first level where they agree gives the evidence. */
  function FoldEvidence(sha: Hash, i: U64, a: Digest, ca: seq<Digest>, b: Digest, cb: seq<Digest>): (e: Evidence)
    requires a != b && |ca| == |cb|
    requires Fold(sha, i, a, ca) == Fold(sha, i, b, cb)
    ensures Breaks(sha, e)
    decreases |ca|
  {
    var a', b' := Parent(sha, i, a, ca[0]), Parent(sha, i, b, cb[0]);
    if a' != b' then FoldEvidence(sha, Shr1(i), a', ca[1..], b', cb[1..])
    else if i % 2 == 0 then InnerEvidence(sha, a, ca[0], b, cb[0])
    else InnerEvidence(sha, ca[0], a, cb[0], b)
  }

  /** What a slot may hold. */
  function SlotHash(sha: Hash, leaf: Option<Leaf>): Digest {
    match leaf
    case Some(l) => LeafHash(sha, l)
    case None => EMPTY
  }

  /** Two different claims about one slot, both folding to the same root. */
  function SlotEvidence(sha: Hash, i: U64, x: Option<Leaf>, xs: seq<Digest>, y: Option<Leaf>, ys: seq<Digest>): (e: Evidence)
    requires x != y && |xs| == |ys|
    requires Fold(sha, i, SlotHash(sha, x), xs) == Fold(sha, i, SlotHash(sha, y), ys)
    ensures Breaks(sha, e)
  {
    if SlotHash(sha, x) != SlotHash(sha, y) then FoldEvidence(sha, i, SlotHash(sha, x), xs, SlotHash(sha, y), ys)
    else if x == None then ZeroPreimage(LeafPreimage(y.value))
    else if y == None then ZeroPreimage(LeafPreimage(x.value))
    else
      var a, b := LeafPreimage(x.value), LeafPreimage(y.value);
      assert a[1..33] == x.value.keyHash && b[1..33] == y.value.keyHash;
      assert a[33..] == x.value.valueHash && b[33..] == y.value.valueHash;
      Collision(a, b)
  }

  function At(leaves: Leaves, i: U64): Option<Leaf> {
    if i in leaves then Some(leaves[i]) else None
  }

  /** A claim about a slot that folds to a tree's root is what the tree holds there,
      or the branch together with the tree's own branch breaks the hash. */
  function ClaimEvidence(sha: Hash, leaves: Leaves, i: U64, claim: Option<Leaf>, siblings: seq<Digest>): (e: Evidence)
    requires |siblings| == DEPTH
    requires Fold(sha, i, SlotHash(sha, claim), siblings) == TreeRoot(sha, leaves)
    requires claim != At(leaves, i)
    ensures Breaks(sha, e)
  {
    BranchFoldsToRoot(sha, leaves, i);
    SlotEvidence(sha, i, claim, siblings, At(leaves, i), TreeSiblings(sha, leaves, 0, i, DEPTH))
  }

  /** The root binds the whole tree: at a slot where two trees with one root differ,
      their two branches break the hash. */
  function RootEvidence(sha: Hash, leaves: Leaves, leaves': Leaves, i: U64): (e: Evidence)
    requires TreeRoot(sha, leaves) == TreeRoot(sha, leaves')
    requires At(leaves, i) != At(leaves', i)
    ensures Breaks(sha, e)
  {
    BranchFoldsToRoot(sha, leaves, i);
    ClaimEvidence(sha, leaves', i, At(leaves, i), TreeSiblings(sha, leaves, 0, i, DEPTH))
  }

  lemma LeavesExtensional(a: Leaves, b: Leaves)
    requires forall i: U64 :: At(a, i) == At(b, i)
    ensures a == b
  {
    assert forall i: U64 :: i in a <==> i in b by {
      forall i: U64 ensures i in a <==> i in b { assert At(a, i) == At(b, i); }
    }
    assert forall i: U64 | i in a :: a[i] == b[i] by {
      forall i: U64 | i in a ensures a[i] == b[i] { assert At(a, i) == At(b, i); }
    }
    assert a.Keys == b.Keys;
  }

  /** Trees with one root are equal, or differ at a slot whose branches break the hash. */
  lemma RootBindsLeaves(sha: Hash, leaves: Leaves, leaves': Leaves)
    requires TreeRoot(sha, leaves) == TreeRoot(sha, leaves')
    ensures leaves == leaves'
         || exists i: U64 :: At(leaves, i) != At(leaves', i) && Breaks(sha, RootEvidence(sha, leaves, leaves', i))
  {
    if forall i: U64 :: At(leaves, i) == At(leaves', i) {
      LeavesExtensional(leaves, leaves');
    } else {
      var i: U64 :| At(leaves, i) != At(leaves', i);
      assert Breaks(sha, RootEvidence(sha, leaves, leaves', i));
    }
  }
}
