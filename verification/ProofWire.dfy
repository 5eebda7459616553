/** ICS-23 shaped proofs: the gateway's printer and the wasm client's parser. */
module ProofWire {
  import opened Prelude
  import opened MerkleTree
  import opened SmtStore

  datatype LeafOp = LeafOp(hash: int, prehashKey: int, prehashValue: int, length: int, prefix: Bytes)

  datatype InnerOp = InnerOp(hash: int, prefix: Bytes, suffix: Bytes)

  datatype ExistenceProof = ExistenceProof(key: Bytes, value: Bytes, leaf: Option<LeafOp>, path: seq<InnerOp>)

  datatype NonExistenceProof = NonExistenceProof(
    key: Bytes,
    left: Option<ExistenceProof>,
    right: Option<ExistenceProof>)

  datatype CommitmentProof = Unset | Exist(exist: ExistenceProof) | Nonexist(nonexist: NonExistenceProof)

  datatype MerkleProof = MerkleProof(proofs: seq<CommitmentProof>)

  const NO_HASH := 0
  const SHA256 := 1

  // ---------------------------------------------------------------- printing

  function InnerOpWithParity(sibling: Digest, isLeftChild: bool): InnerOp {
    if isLeftChild then InnerOp(SHA256, [0x01], sibling)
    else InnerOp(SHA256, [0x01] + sibling, [])
  }

  function PathOps(siblings: seq<Digest>, index: U64): (r: seq<InnerOp>)
    ensures |r| == |siblings|
    decreases |siblings|
  {
    if |siblings| == 0 then []
    else [InnerOpWithParity(siblings[0], index % 2 == 0)] + PathOps(siblings[1..], Shr1(index))
  }

  function ExistenceWithIndex(key: Bytes, value: Bytes, siblings: seq<Digest>, index: U64): ExistenceProof {
    ExistenceProof(key, value, Some(LeafOp(SHA256, NO_HASH, NO_HASH, 0, [])), PathOps(siblings, index))
  }

  method BuildExistenceProofWithIndex(key: Bytes, value: Bytes, siblings: seq<Digest>, index: U64)
      returns (r: ExistenceProof)
    ensures r == ExistenceWithIndex(key, value, siblings, index)
  {
    var path: seq<InnerOp> := [];
    var subIdx := index;
    for k := 0 to |siblings|
      invariant path + PathOps(siblings[k..], subIdx) == PathOps(siblings, index)
    {
      ghost var rest := siblings[k..];
      assert rest[0] == siblings[k] && rest[1..] == siblings[k + 1..];
      var isLeftChild := subIdx % 2 == 0;
      path := path + [InnerOpWithParity(siblings[k], isLeftChild)];
      subIdx := Shr1(subIdx);
    }
    r := ExistenceProof(key, value, Some(LeafOp(SHA256, NO_HASH, NO_HASH, 0, [])), path);
  }

  function SerializeMembership(proof: MembershipProof, key: Bytes, value: Bytes, index: U64): MerkleProof {
    MerkleProof([Exist(ExistenceWithIndex(key, value, proof.siblings, index))])
  }

  function SerializeNonMembership(proof: NonMembershipProof, key: Bytes, index: U64): MerkleProof {
    MerkleProof([Nonexist(NonExistenceProof(key, Some(ExistenceWithIndex(key, [], proof.siblings, index)), None))])
  }

  // ---------------------------------------------------------------- parsing

  function ExtractSibling(op: InnerOp): Option<Digest> {
    if |op.suffix| == HASH_SIZE && |op.prefix| == 1 && op.prefix[0] == 0x01 then
      Some(op.suffix)
    else if |op.suffix| == 0 && |op.prefix| == 1 + HASH_SIZE && op.prefix[0] == 0x01 then
      Some(op.prefix[1..])
    else None
  }

  function ExtractSiblings(ops: seq<InnerOp>): Option<seq<Digest>> {
    if |ops| == 0 then Some([])
    else match (ExtractSibling(ops[0]), ExtractSiblings(ops[1..]))
      case (Some(d), Some(ds)) => Some([d] + ds)
      case _ => None
  }

  datatype Decoded = Decoded(key: Bytes, value: Bytes, siblings: seq<Digest>)

  function DecodeMembership(m: MerkleProof): Option<Decoded> {
    if |m.proofs| == 0 || !m.proofs[0].Exist? then None
    else
      var e := m.proofs[0].exist;
      match ExtractSiblings(e.path)
      case Some(siblings) => Some(Decoded(e.key, e.value, siblings))
      case None => None
  }

  /** The key is taken from the outer message, the siblings from the sentinel inside. */
  function DecodeNonMembership(m: MerkleProof): Option<Decoded> {
    if |m.proofs| == 0 || !m.proofs[0].Nonexist? then None
    else
      var n := m.proofs[0].nonexist;
      if n.left == None || n.left.value.value != [] then None
      else match ExtractSiblings(n.left.value.path)
        case Some(siblings) => Some(Decoded(n.key, [], siblings))
        case None => None
  }

  // ---------------------------------------------------------------- round trips

  lemma {:induction false} SiblingsRoundTrip(siblings: seq<Digest>, index: U64)
    ensures ExtractSiblings(PathOps(siblings, index)) == Some(siblings)
    decreases |siblings|
  {
    if |siblings| > 0 {
      var ops := PathOps(siblings, index);
      assert ops[1..] == PathOps(siblings[1..], Shr1(index));
      SiblingsRoundTrip(siblings[1..], Shr1(index));
      var op := ops[0];
      if index % 2 != 0 {
        assert op.prefix[1..] == siblings[0];
      }
      assert siblings == [siblings[0]] + siblings[1..];
    }
  }

  lemma MembershipRoundTrip(proof: MembershipProof, key: Bytes, value: Bytes, index: U64)
    ensures DecodeMembership(SerializeMembership(proof, key, value, index)) == Some(Decoded(key, value, proof.siblings))
    ensures DecodeNonMembership(SerializeMembership(proof, key, value, index)) == None
  {
    SiblingsRoundTrip(proof.siblings, index);
  }

  lemma NonMembershipRoundTrip(proof: NonMembershipProof, key: Bytes, index: U64)
    ensures DecodeNonMembership(SerializeNonMembership(proof, key, index)) == Some(Decoded(key, [], proof.siblings))
    ensures DecodeMembership(SerializeNonMembership(proof, key, index)) == None
  {
    SiblingsRoundTrip(proof.siblings, index);
  }
}
