/** The gateway's sparse Merkle tree: a leaf map, its materialised levels, and proofs. */
module SmtStore {
  import opened Prelude
  import opened MerkleTree

  datatype MembershipProof = MembershipProof(keyHash: Digest, valueHash: Digest, siblings: seq<Digest>)

  datatype NonMembershipProof = NonMembershipProof(keyHash: Digest, siblings: seq<Digest>)

  type Level = map<U64, Digest>

  function Lookup(m: Level, i: nat): Digest {
    if i in m then m[i] else EMPTY
  }

  /** A sparse level stands for the whole level of the dense tree, and none of its
      indices has a bit above the `DEPTH - h` bits of that level. */
  ghost predicate LevelAgrees(sha: Hash, leaves: Leaves, h: nat, m: Level) {
    && h <= DEPTH
    && (forall i: nat :: Lookup(m, i) == Node(sha, leaves, h, i))
    && (forall i :: i in m ==> i < Pow2(DEPTH - h))
  }

  // ---------------------------------------------------------------- writes

  function Removed(sha: Hash, leaves: Leaves, key: Bytes): Leaves {
    leaves - {Slot(sha, key)}
  }

  function Inserted(sha: Hash, leaves: Leaves, key: Bytes, value: Bytes): Leaves {
    if value == [] then Removed(sha, leaves, key)
    else leaves[Slot(sha, key) := Leaf(sha(key), sha(value))]
  }

  /** One write to the tree; writing the empty value removes. */
  datatype Write = Write(key: Bytes, value: Bytes)

  function Apply(sha: Hash, leaves: Leaves, w: Write): Leaves {
    Inserted(sha, leaves, w.key, w.value)
  }

  function ApplyAll(sha: Hash, leaves: Leaves, ws: seq<Write>): Leaves {
    if |ws| == 0 then leaves else Apply(sha, ApplyAll(sha, leaves, ws[..|ws| - 1]), ws[|ws| - 1])
  }

  /** The last write of `ws` that lands in slot `i`. */
  function LastWrite(sha: Hash, ws: seq<Write>, i: U64): Option<Write> {
    if |ws| == 0 then None
    else if Slot(sha, ws[|ws| - 1].key) == i then Some(ws[|ws| - 1])
    else LastWrite(sha, ws[..|ws| - 1], i)
  }

  function LeafOf(sha: Hash, w: Write): Option<Leaf> {
    if w.value == [] then None else Some(Leaf(sha(w.key), sha(w.value)))
  }

  /** Last writer wins, slot by slot. */
  lemma {:induction false} SlotAfterWrites(sha: Hash, leaves: Leaves, ws: seq<Write>, i: U64)
    ensures At(ApplyAll(sha, leaves, ws), i)
         == match LastWrite(sha, ws, i) case Some(w) => LeafOf(sha, w) case None => At(leaves, i)
  {
    if |ws| > 0 {
      SlotAfterWrites(sha, leaves, ws[..|ws| - 1], i);
    }
  }

  // ---------------------------------------------------------------- verification

  function VerifyMembership(sha: Hash, root: Digest, proof: MembershipProof, key: Bytes, value: Bytes): bool {
    && value != []
    && sha(key) == proof.keyHash
    && sha(value) == proof.valueHash
    && |proof.siblings| == DEPTH
    && Fold(sha, KeyIndex(sha(key)), LeafHash(sha, Leaf(sha(key), sha(value))), proof.siblings) == root
  }

  function VerifyNonMembership(sha: Hash, root: Digest, proof: NonMembershipProof, key: Bytes): bool {
    && sha(key) == proof.keyHash
    && |proof.siblings| == DEPTH
    && Fold(sha, KeyIndex(sha(key)), EMPTY, proof.siblings) == root
  }

  /** The proof the tree can give for a key: only if the slot holds this very key. */
  function MembershipFor(sha: Hash, leaves: Leaves, key: Bytes): Option<MembershipProof> {
    var i := Slot(sha, key);
    if i in leaves && leaves[i].keyHash == sha(key) then
      Some(MembershipProof(sha(key), leaves[i].valueHash, TreeSiblings(sha, leaves, 0, i, DEPTH)))
    else None
  }

  /** Only if the slot is empty: a slot taken by another key has no proof at all. */
  function NonMembershipFor(sha: Hash, leaves: Leaves, key: Bytes): Option<NonMembershipProof> {
    var i := Slot(sha, key);
    if i in leaves then None
    else Some(NonMembershipProof(sha(key), TreeSiblings(sha, leaves, 0, i, DEPTH)))
  }

  /** The parent level of a sparse level stands for the next dense level. */
  lemma LevelStep(sha: Hash, leaves: Leaves, h: nat, m: Level, parents: set<U64>, next: Level)
    requires h < DEPTH && LevelAgrees(sha, leaves, h, m)
    requires parents == set i | i in m :: Shr1(i)
    requires forall p :: p in next ==> p in parents
    requires forall p :: p in parents ==>
               Lookup(next, p) == InnerHash(sha, Lookup(m, Shl1(p)), Lookup(m, Or1(Shl1(p))))
    ensures LevelAgrees(sha, leaves, h + 1, next)
  {
    forall p | p in parents ensures p < Pow2(DEPTH - (h + 1)) && Shl1(p) == 2 * p && Or1(Shl1(p)) == 2 * p + 1 {
      ParentInRange(h, m, p);
    }
    forall p: nat ensures Lookup(next, p) == Node(sha, leaves, h + 1, p) {
      assert Lookup(m, 2 * p) == Node(sha, leaves, h, 2 * p);
      assert Lookup(m, 2 * p + 1) == Node(sha, leaves, h, 2 * p + 1);
      if p !in parents {
        NoChildren(m, parents, p);
      }
    }
  }

  lemma NoChildren(m: Level, parents: set<U64>, p: nat)
    requires parents == (set i | i in m :: Shr1(i)) && p !in parents
    ensures 2 * p !in m && 2 * p + 1 !in m
  {
    assert forall c :: c in m ==> Shr1(c) in parents;
    assert 2 * p in m ==> Shr1(2 * p) == p;
    assert 2 * p + 1 in m ==> Shr1(2 * p + 1) == p;
  }

  lemma ParentInRange(h: nat, m: Level, p: U64)
    requires h < DEPTH && forall i :: i in m ==> i < Pow2(DEPTH - h)
    requires exists i :: i in m && Shr1(i) == p
    ensures p < Pow2(DEPTH - (h + 1))
    ensures Shl1(p) == 2 * p && Or1(Shl1(p)) == 2 * p + 1
  {
    assert Pow2(DEPTH - h) == 2 * Pow2(DEPTH - (h + 1));
  }

  // ---------------------------------------------------------------- the tree object

  class Smt {
    const sha: Hash
    var leaves: Leaves

    constructor (sha: Hash)
      ensures this.sha == sha && leaves == map[]
    {
      this.sha := sha;
      leaves := map[];
    }

    method Remove(key: Bytes)
      modifies this
      ensures leaves == Removed(sha, old(leaves), key)
    {
      leaves := leaves - {KeyIndex(sha(key))};
    }

    method Insert(key: Bytes, value: Bytes)
      modifies this
      ensures leaves == Inserted(sha, old(leaves), key, value)
    {
      if value == [] {
        Remove(key);
        return;
      }
      var keyHash := sha(key);
      var valueHash := sha(value);
      leaves := leaves[KeyIndex(keyHash) := Leaf(keyHash, valueHash)];
    }

    /** Builds all 65 levels bottom up, storing only non-empty nodes. */
    method MaterializeLevels() returns (levels: seq<Level>)
      ensures |levels| == DEPTH + 1
      ensures forall h :: 0 <= h <= DEPTH ==> LevelAgrees(sha, leaves, h, levels[h])
    {
      var bottom := LeafLevel();
      levels := [bottom];
      for h := 1 to DEPTH + 1
        invariant |levels| == h
        invariant forall k :: 0 <= k < h ==> LevelAgrees(sha, leaves, k, levels[k])
      {
        var next := ParentLevel(h - 1, levels[h - 1]);
        levels := levels + [next];
      }
    }

    method LeafLevel() returns (bottom: Level)
      ensures LevelAgrees(sha, leaves, 0, bottom)
    {
      bottom := map[];
      var todo := leaves.Keys;
      while todo != {}
        invariant todo <= leaves.Keys && bottom.Keys == leaves.Keys - todo
        invariant forall i :: i in bottom ==> bottom[i] == LeafHash(sha, leaves[i])
      {
        var i :| i in todo;
        bottom := bottom[i := LeafHash(sha, leaves[i])];
        todo := todo - {i};
      }
      Pow2Of64();
    }

    method ParentLevel(ghost h: nat, level: Level) returns (next: Level)
      requires h < DEPTH && LevelAgrees(sha, leaves, h, level)
      ensures LevelAgrees(sha, leaves, h + 1, next)
    {
      var parents := set i | i in level :: Shr1(i);
      next := map[];
      var todo := parents;
      while todo != {}
        invariant todo <= parents
        invariant forall p :: p in next ==> p in parents - todo
        invariant forall p :: p in parents - todo ==>
                    Lookup(next, p) == InnerHash(sha, Lookup(level, Shl1(p)), Lookup(level, Or1(Shl1(p))))
      {
        var p :| p in todo;
        var left := Shl1(p);
        var right := Or1(left);
        var node := InnerHash(sha, Lookup(level, left), Lookup(level, right));
        if node != EMPTY {
          next := next[p := node];
        }
        todo := todo - {p};
      }
      LevelStep(sha, leaves, h, level, parents, next);
    }

    method Root() returns (r: Digest)
      ensures r == TreeRoot(sha, leaves)
    {
      if leaves == map[] {
        NodeOfEmptyTree(sha, DEPTH, 0);
        return EMPTY;
      }
      var levels := MaterializeLevels();
      r := Lookup(levels[DEPTH], 0);
    }

    method SiblingsFor(idx: U64) returns (out: seq<Digest>)
      ensures out == TreeSiblings(sha, leaves, 0, idx, DEPTH)
    {
      var levels := MaterializeLevels();
      out := [];
      var i := idx;
      for h := 0 to DEPTH
        invariant out + TreeSiblings(sha, leaves, h, i, DEPTH) == TreeSiblings(sha, leaves, 0, idx, DEPTH)
      {
        assert LevelAgrees(sha, leaves, h, levels[h]);
        ghost var rest := TreeSiblings(sha, leaves, h + 1, Shr1(i), DEPTH);
        assert out + ([Node(sha, leaves, h, Xor1(i))] + rest) == out + [Node(sha, leaves, h, Xor1(i))] + rest;
        out := out + [Lookup(levels[h], Xor1(i))];
        i := Shr1(i);
      }
    }

    /** The generated proof verifies for exactly the non-empty values of the stored hash. */
    method GenerateMembershipProof(key: Bytes) returns (r: Option<MembershipProof>)
      ensures r == MembershipFor(sha, leaves, key)
      ensures r.Some? ==> forall value ::
                VerifyMembership(sha, TreeRoot(sha, leaves), r.value, key, value)
                <==> value != [] && sha(value) == leaves[Slot(sha, key)].valueHash
    {
      var keyHash := sha(key);
      var idx := KeyIndex(keyHash);
      if idx !in leaves || leaves[idx].keyHash != keyHash {
        return None;
      }
      var siblings := SiblingsFor(idx);
      BranchFoldsToRoot(sha, leaves, idx);
      r := Some(MembershipProof(keyHash, leaves[idx].valueHash, siblings));
    }

    method GenerateNonMembershipProof(key: Bytes) returns (r: Option<NonMembershipProof>)
      ensures r == NonMembershipFor(sha, leaves, key)
      ensures r.Some? ==> VerifyNonMembership(sha, TreeRoot(sha, leaves), r.value, key)
    {
      var keyHash := sha(key);
      var idx := KeyIndex(keyHash);
      if idx in leaves {
        return None;
      }
      var siblings := SiblingsFor(idx);
      BranchFoldsToRoot(sha, leaves, idx);
      r := Some(NonMembershipProof(keyHash, siblings));
    }
  }

  /** The verifier's loop over the siblings. */
  method FoldSiblings(sha: Hash, idx: U64, leaf: Digest, siblings: seq<Digest>) returns (current: Digest)
    ensures current == Fold(sha, idx, leaf, siblings)
  {
    current := leaf;
    var subIdx := idx;
    for k := 0 to |siblings|
      invariant Fold(sha, subIdx, current, siblings[k..]) == Fold(sha, idx, leaf, siblings)
    {
      ghost var rest := siblings[k..];
      assert rest[0] == siblings[k] && rest[1..] == siblings[k + 1..];
      current := if subIdx % 2 == 0 then InnerHash(sha, current, siblings[k]) else InnerHash(sha, siblings[k], current);
      subIdx := Shr1(subIdx);
    }
  }
}
