/** Gateway tree to wasm client, end to end: completeness, soundness, exclusivity. */
module ProofPipeline {
  import opened Prelude
  import opened MerkleTree
  import opened SmtStore
  import opened ProofWire
  import opened WasmClient

  /** The client is live and trusts `root` at `height`. */
  predicate Trusts(st: Store, height: U64, root: Digest) {
    RootAt(st, height) == Ok(root)
  }

  /** What the gateway answers for a key: the value field carries the value hash. */
  datatype Lookup = Found(valueHash: Digest, proof: MerkleProof) | Absent(proof: MerkleProof) | Unavailable

  function LookupPath(sha: Hash, leaves: Leaves, key: Bytes): Lookup {
    match MembershipFor(sha, leaves, key)
    case Some(p) => Found(p.valueHash, SerializeMembership(p, key, p.valueHash, Slot(sha, key)))
    case None =>
      match NonMembershipFor(sha, leaves, key)
      case Some(p) => Absent(SerializeNonMembership(p, key, Slot(sha, key)))
      case None => Unavailable
  }

  /** `found` is the right answer for `key` in a tree whose slot was last written by `last`. */
  predicate RightAnswer(sha: Hash, last: Option<Write>, found: Lookup, key: Bytes) {
    if found.Found? then
      && last.Some? && last.value.value != [] && sha(last.value.key) == sha(key)
      && found.valueHash == sha(last.value.value)
    else if found.Absent? then
      last == None || last.value.value == []
    else
      last.Some? && last.value.value != [] && sha(last.value.key) != sha(key)
  }

  /** The client takes `found` as proof for exactly the key it was made for and exactly
      the non-empty values of its hash, or for exactly the absent key. */
  predicate ConvincesExactly(sha: Hash, found: Lookup, key: Bytes, st: Store, height: U64, keyPath: seq<Bytes>, value: Bytes) {
    if found.Found? then
      && (CheckMembership(sha, st, height, Some(found.proof), keyPath, value) == Ok(())
          <==> Concat(keyPath) == key && value != [] && sha(value) == found.valueHash)
      && CheckNonMembership(sha, st, height, Some(found.proof), keyPath).Err?
    else if found.Absent? then
      && (CheckNonMembership(sha, st, height, Some(found.proof), keyPath) == Ok(()) <==> Concat(keyPath) == key)
      && CheckMembership(sha, st, height, Some(found.proof), keyPath, value).Err?
    else true
  }

  lemma LastWriteDecides(sha: Hash, ws: seq<Write>, key: Bytes)
    ensures RightAnswer(sha, LastWrite(sha, ws, Slot(sha, key)), LookupPath(sha, ApplyAll(sha, map[], ws), key), key)
  {
    SlotAfterWrites(sha, map[], ws, Slot(sha, key));
  }

  /** After any writes, the slot's last write decides the answer, and the answer,
      serialised and decoded, convinces the wasm client of exactly what it says. */
  lemma AnswerAcceptedExactly(sha: Hash, ws: seq<Write>, key: Bytes, st: Store, height: U64,
                              keyPath: seq<Bytes>, value: Bytes)
    requires Trusts(st, height, TreeRoot(sha, ApplyAll(sha, map[], ws)))
    ensures var found := LookupPath(sha, ApplyAll(sha, map[], ws), key);
            && RightAnswer(sha, LastWrite(sha, ws, Slot(sha, key)), found, key)
            && ConvincesExactly(sha, found, key, st, height, keyPath, value)
  {
    LastWriteDecides(sha, ws, key);
    AnswerConvincesExactly(sha, ApplyAll(sha, map[], ws), key, st, height, keyPath, value);
  }

  lemma AnswerConvincesExactly(sha: Hash, leaves: Leaves, key: Bytes, st: Store, height: U64, keyPath: seq<Bytes>, value: Bytes)
    requires Trusts(st, height, TreeRoot(sha, leaves))
    ensures ConvincesExactly(sha, LookupPath(sha, leaves, key), key, st, height, keyPath, value)
  {
    if MembershipFor(sha, leaves, key).Some? {
      FoundAcceptedExactly(sha, leaves, key, st, height, keyPath, value);
    } else if NonMembershipFor(sha, leaves, key).Some? {
      AbsentAcceptedExactly(sha, leaves, key, st, height, keyPath, value);
    }
  }

  lemma FoundAcceptedExactly(sha: Hash, leaves: Leaves, key: Bytes, st: Store, height: U64, keyPath: seq<Bytes>, value: Bytes)
    requires Trusts(st, height, TreeRoot(sha, leaves))
    requires MembershipFor(sha, leaves, key).Some?
    ensures ConvincesExactly(sha, LookupPath(sha, leaves, key), key, st, height, keyPath, value)
  {
    var i := Slot(sha, key);
    var p := MembershipFor(sha, leaves, key).value;
    var wire := SerializeMembership(p, key, p.valueHash, i);
    assert LookupPath(sha, leaves, key) == Found(p.valueHash, wire);
    MembershipRoundTrip(p, key, p.valueHash, i);
    BranchFoldsToRoot(sha, leaves, i);
    assert leaves[i] == Leaf(sha(key), p.valueHash);
  }

  lemma AbsentAcceptedExactly(sha: Hash, leaves: Leaves, key: Bytes, st: Store, height: U64, keyPath: seq<Bytes>, value: Bytes)
    requires Trusts(st, height, TreeRoot(sha, leaves))
    requires NonMembershipFor(sha, leaves, key).Some?
    ensures ConvincesExactly(sha, LookupPath(sha, leaves, key), key, st, height, keyPath, value)
  {
    var i := Slot(sha, key);
    var p := NonMembershipFor(sha, leaves, key).value;
    var wire := SerializeNonMembership(p, key, i);
    assert LookupPath(sha, leaves, key) == Absent(wire);
    NonMembershipRoundTrip(p, key, i);
    BranchFoldsToRoot(sha, leaves, i);
  }

  // ---------------------------------------------------------------- soundness

  /** What an accepted proof claims about the slot of the key. */
  function ClaimedLeaf(sha: Hash, key: Bytes, value: Bytes): Option<Leaf> {
    Some(Leaf(sha(key), sha(value)))
  }

  /** An accepted membership proof tells the truth about the committed tree, or the
      proof and the tree together break the hash. */
  lemma MembershipSound(sha: Hash, leaves: Leaves, st: Store, height: U64, proof: MerkleProof,
                        keyPath: seq<Bytes>, value: Bytes)
    requires Trusts(st, height, TreeRoot(sha, leaves))
    requires CheckMembership(sha, st, height, Some(proof), keyPath, value) == Ok(())
    ensures var key := Concat(keyPath);
            var claim := ClaimedLeaf(sha, key, value);
            At(leaves, Slot(sha, key)) == claim
            || Breaks(sha, ClaimEvidence(sha, leaves, Slot(sha, key), claim, DecodeMembership(proof).value.siblings))
  {
  }

  lemma NonMembershipSound(sha: Hash, leaves: Leaves, st: Store, height: U64, proof: MerkleProof, keyPath: seq<Bytes>)
    requires Trusts(st, height, TreeRoot(sha, leaves))
    requires CheckNonMembership(sha, st, height, Some(proof), keyPath) == Ok(())
    ensures var key := Concat(keyPath);
            At(leaves, Slot(sha, key)) == None
            || Breaks(sha, ClaimEvidence(sha, leaves, Slot(sha, key), None, DecodeNonMembership(proof).value.siblings))
  {
  }

  /** For any trusted root, whether or not it comes from a tree: the evidence is
      computed from the two proofs. */
  function PresentAndAbsentEvidence(sha: Hash, st: Store, height: U64, p: MerkleProof, q: MerkleProof,
                                    keyPath: seq<Bytes>, value: Bytes): (e: Evidence)
    requires CheckMembership(sha, st, height, Some(p), keyPath, value) == Ok(())
    requires CheckNonMembership(sha, st, height, Some(q), keyPath) == Ok(())
    ensures Breaks(sha, e)
  {
    var key := Concat(keyPath);
    SlotEvidence(sha, Slot(sha, key), ClaimedLeaf(sha, key, value), DecodeMembership(p).value.siblings,
                 None, DecodeNonMembership(q).value.siblings)
  }

  function TwoValuesEvidence(sha: Hash, st: Store, height: U64, p: MerkleProof, q: MerkleProof,
                             keyPath: seq<Bytes>, value: Bytes, value': Bytes): (e: Evidence)
    requires value != value'
    requires CheckMembership(sha, st, height, Some(p), keyPath, value) == Ok(())
    requires CheckMembership(sha, st, height, Some(q), keyPath, value') == Ok(())
    ensures Breaks(sha, e)
  {
    var key := Concat(keyPath);
    if sha(value) == sha(value') then Collision(value, value')
    else SlotEvidence(sha, Slot(sha, key), ClaimedLeaf(sha, key, value), DecodeMembership(p).value.siblings,
                      ClaimedLeaf(sha, key, value'), DecodeMembership(q).value.siblings)
  }
}
