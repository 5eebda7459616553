/** What a proof accepted by the wasm client says about the store it was made for. */
module StoreProofs {
  import opened Prelude
  import opened MerkleTree
  import opened SmtStore
  import opened ProofWire
  import opened WasmClient
  import opened ProofPipeline

  /** The byte-keyed store after a sequence of writes; an empty value removes. */
  function StoreAfter(ws: seq<Write>): map<Bytes, Bytes> {
    if |ws| == 0 then map[]
    else
      var before, w := StoreAfter(ws[..|ws| - 1]), ws[|ws| - 1];
      if w.value == [] then before - {w.key} else before[w.key := w.value]
  }

  /** If the last write into the slot of `key` was to `key` itself, the store agrees with it. */
  lemma {:induction false} LastWriteIsStored(sha: Hash, ws: seq<Write>, key: Bytes)
    requires LastWrite(sha, ws, Slot(sha, key)).Some? && LastWrite(sha, ws, Slot(sha, key)).value.key == key
    ensures var w := LastWrite(sha, ws, Slot(sha, key)).value;
            if w.value == [] then key !in StoreAfter(ws) else key in StoreAfter(ws) && StoreAfter(ws)[key] == w.value
  {
    if Slot(sha, ws[|ws| - 1].key) != Slot(sha, key) {
      LastWriteIsStored(sha, ws[..|ws| - 1], key);
    }
  }

  lemma {:induction false} UnwrittenIsAbsent(sha: Hash, ws: seq<Write>, key: Bytes)
    requires LastWrite(sha, ws, Slot(sha, key)) == None
    ensures key !in StoreAfter(ws)
  {
    if |ws| > 0 {
      UnwrittenIsAbsent(sha, ws[..|ws| - 1], key);
    }
  }

  lemma {:induction false} LastWriteOccurs(sha: Hash, ws: seq<Write>, i: U64)
    requires LastWrite(sha, ws, i).Some?
    ensures LastWrite(sha, ws, i).value in ws && Slot(sha, LastWrite(sha, ws, i).value.key) == i
  {
    if Slot(sha, ws[|ws| - 1].key) != i {
      LastWriteOccurs(sha, ws[..|ws| - 1], i);
    }
  }

  /** From a branch that claims what the store does not hold: the branch collides with the tree's,
      or the key or the value with the one last written. */
  function FalseClaimEvidence(sha: Hash, ws: seq<Write>, key: Bytes, value: Bytes, siblings: seq<Digest>): (e: Evidence)
    requires |siblings| == DEPTH && value != []
    requires Fold(sha, Slot(sha, key), SlotHash(sha, ClaimedLeaf(sha, key, value)), siblings)
          == TreeRoot(sha, ApplyAll(sha, map[], ws))
    requires !(key in StoreAfter(ws) && StoreAfter(ws)[key] == value)
    ensures Breaks(sha, e)
  {
    var leaves, i := ApplyAll(sha, map[], ws), Slot(sha, key);
    SlotAfterWrites(sha, map[], ws, i);
    if At(leaves, i) != ClaimedLeaf(sha, key, value) then
      ClaimEvidence(sha, leaves, i, ClaimedLeaf(sha, key, value), siblings)
    else
      var w := LastWrite(sha, ws, i).value;
      if w.key != key then Collision(w.key, key)
      else
        LastWriteIsStored(sha, ws, key);
        Collision(w.value, value)
  }

  /** A membership proof accepted under the root of the written tree is about the store: the key
      holds exactly that value there, or the proof and the writes break the hash. */
  lemma AcceptedIsStored(sha: Hash, ws: seq<Write>, st: Store, height: U64, proof: MerkleProof, keyPath: seq<Bytes>, value: Bytes)
    requires Trusts(st, height, TreeRoot(sha, ApplyAll(sha, map[], ws)))
    requires CheckMembership(sha, st, height, Some(proof), keyPath, value) == Ok(())
    ensures var key := Concat(keyPath);
            || (key in StoreAfter(ws) && StoreAfter(ws)[key] == value)
            || Breaks(sha, FalseClaimEvidence(sha, ws, key, value, DecodeMembership(proof).value.siblings))
  {
    var key := Concat(keyPath);
    if !(key in StoreAfter(ws) && StoreAfter(ws)[key] == value) {
      assert Breaks(sha, FalseClaimEvidence(sha, ws, key, value, DecodeMembership(proof).value.siblings));
    }
  }

  /** When two keys share a slot, removing one hides the other: the store then holds `key`, and the tree
      proves its absence. */
  lemma SharedSlotHides(sha: Hash, key: Bytes, other: Bytes, value: Bytes)
    requires key != other && Slot(sha, key) == Slot(sha, other) && value != []
    ensures var ws := [Write(key, value), Write(other, [])];
            && key in StoreAfter(ws) && StoreAfter(ws)[key] == value
            && LookupPath(sha, ApplyAll(sha, map[], ws), key).Absent?
  {
    var ws := [Write(key, value), Write(other, [])];
    assert ws[..1] == [Write(key, value)];
    assert ws[..1][..0] == [];
    SlotAfterWrites(sha, map[], ws, Slot(sha, key));
  }

  // ---------------------------------------------------------------- exactly when absence is truthful

  /** The last write into the slot of `key` removed another key. */
  predicate RemovedByOther(sha: Hash, ws: seq<Write>, key: Bytes) {
    var w := LastWrite(sha, ws, Slot(sha, key));
    w.Some? && w.value.value == [] && w.value.key != key
  }

  /** A stored key is hidden exactly when the last write into its slot removed another key. */
  lemma HiddenExactly(sha: Hash, ws: seq<Write>, key: Bytes)
    requires key in StoreAfter(ws)
    ensures At(ApplyAll(sha, map[], ws), Slot(sha, key)) == None <==> RemovedByOther(sha, ws, key)
  {
    SlotAfterWrites(sha, map[], ws, Slot(sha, key));
    var w := LastWrite(sha, ws, Slot(sha, key));
    if w == None {
      UnwrittenIsAbsent(sha, ws, key);
    } else if w.value.key == key {
      LastWriteIsStored(sha, ws, key);
    }
  }

  /** An accepted non-membership proof means that the key is absent from the store, unless the last write
      into its slot removed another key, or the proof breaks the hash. */
  lemma AcceptedIsAbsent(sha: Hash, ws: seq<Write>, st: Store, height: U64, proof: MerkleProof, key: Bytes)
    requires Trusts(st, height, TreeRoot(sha, ApplyAll(sha, map[], ws)))
    requires CheckNonMembership(sha, st, height, Some(proof), [key]) == Ok(())
    ensures key !in StoreAfter(ws) || RemovedByOther(sha, ws, key) || BreaksWith(sha, ws, key, proof)
  {
    if key in StoreAfter(ws) {
      HiddenExactly(sha, ws, key);
      OnePath(key);
      NonMembershipSound(sha, ApplyAll(sha, map[], ws), st, height, proof, [key]);
    }
  }

  /** A history of writes to the keys of `keys`. */
  predicate WritesTo(ws: seq<Write>, keys: set<Bytes>) {
    forall k :: 0 <= k < |ws| ==> ws[k].key in keys
  }

  ghost predicate AloneInSlot(sha: Hash, keys: set<Bytes>, key: Bytes) {
    forall other :: other in keys && Slot(sha, other) == Slot(sha, key) ==> other == key
  }

  /** After these writes, the client accepts no proof of absence of a stored `key`, unless the proof
      breaks the hash. */
  ghost predicate AbsenceTruthful(sha: Hash, ws: seq<Write>, key: Bytes) {
    forall st: Store, height: U64, proof: MerkleProof ::
      Trusts(st, height, TreeRoot(sha, ApplyAll(sha, map[], ws)))
      && CheckNonMembership(sha, st, height, Some(proof), [key]) == Ok(()) ==>
        || key !in StoreAfter(ws)
        || BreaksWith(sha, ws, key, proof)
  }

  ghost predicate BreaksWith(sha: Hash, ws: seq<Write>, key: Bytes, proof: MerkleProof) {
    var leaves, i := ApplyAll(sha, map[], ws), Slot(sha, key);
    && DecodeNonMembership(proof).Some?
    && var siblings := DecodeNonMembership(proof).value.siblings;
       && |siblings| == DEPTH && Fold(sha, i, EMPTY, siblings) == TreeRoot(sha, leaves)
       && At(leaves, i) != None && Breaks(sha, ClaimEvidence(sha, leaves, i, None, siblings))
  }

  lemma OnePath(key: Bytes)
    ensures Concat([key]) == key
  {
    assert [key][..0] == [];
  }

  /** For one history: absence of a stored key is truthful exactly unless the last write into its slot
      removed another key. */
  lemma TruthfulExactly(sha: Hash, ws: seq<Write>, key: Bytes)
    requires key in StoreAfter(ws)
    ensures AbsenceTruthful(sha, ws, key) <==> !RemovedByOther(sha, ws, key)
  {
    HiddenExactly(sha, ws, key);
    if RemovedByOther(sha, ws, key) {
      HiddenIsAccepted(sha, ws, key);
    } else {
      forall st: Store, height: U64, proof: MerkleProof
        | Trusts(st, height, TreeRoot(sha, ApplyAll(sha, map[], ws)))
          && CheckNonMembership(sha, st, height, Some(proof), [key]) == Ok(())
        ensures BreaksWith(sha, ws, key, proof)
      {
        AcceptedIsAbsent(sha, ws, st, height, proof, key);
      }
    }
  }

  /** A client that trusts the tree's root accepts the gateway's answer for an empty slot. */
  lemma EmptySlotAccepted(sha: Hash, leaves: Leaves, key: Bytes) returns (st: Store, proof: MerkleProof)
    requires At(leaves, Slot(sha, key)) == None
    ensures Trusts(st, 0, TreeRoot(sha, leaves))
    ensures CheckNonMembership(sha, st, 0, Some(proof), [key]) == Ok(())
  {
    st := Store(Some(ClientState(None, None, [], [])), map[0 := ConsensusState(0, [], TreeRoot(sha, leaves))], []);
    proof := LookupPath(sha, leaves, key).proof;
    AnswerConvincesExactly(sha, leaves, key, st, 0, [key], []);
    OnePath(key);
  }

  /** The gateway's own answer for a hidden key convinces the client of its absence. */
  lemma HiddenIsAccepted(sha: Hash, ws: seq<Write>, key: Bytes)
    requires key in StoreAfter(ws) && At(ApplyAll(sha, map[], ws), Slot(sha, key)) == None
    ensures !AbsenceTruthful(sha, ws, key)
  {
    var st, proof := EmptySlotAccepted(sha, ApplyAll(sha, map[], ws), key);
    assert !BreaksWith(sha, ws, key, proof);
  }

  /** Over a set of keys: every history keeps absence truthful for `key` if and only if no other key
      of the set shares its slot. */
  lemma AlwaysTruthfulExactly(sha: Hash, keys: set<Bytes>, key: Bytes)
    requires key in keys
    ensures (forall ws: seq<Write> :: WritesTo(ws, keys) ==> AbsenceTruthful(sha, ws, key)) <==> AloneInSlot(sha, keys, key)
  {
    if AloneInSlot(sha, keys, key) {
      forall ws: seq<Write> | WritesTo(ws, keys) ensures AbsenceTruthful(sha, ws, key) {
        AloneIsTruthful(sha, ws, keys, key);
      }
    } else {
      var other :| other in keys && Slot(sha, other) == Slot(sha, key) && other != key;
      var ws := HidingHistory(sha, keys, key, other);
    }
  }

  lemma HidingHistory(sha: Hash, keys: set<Bytes>, key: Bytes, other: Bytes) returns (ws: seq<Write>)
    requires key in keys && other in keys && Slot(sha, other) == Slot(sha, key) && other != key
    ensures WritesTo(ws, keys) && !AbsenceTruthful(sha, ws, key)
  {
    ws := [Write(key, [1]), Write(other, [])];
    SharedSlotHides(sha, key, other, [1]);
    HiddenIsAccepted(sha, ws, key);
  }

  lemma AloneIsTruthful(sha: Hash, ws: seq<Write>, keys: set<Bytes>, key: Bytes)
    requires WritesTo(ws, keys) && AloneInSlot(sha, keys, key)
    ensures AbsenceTruthful(sha, ws, key)
  {
    if key in StoreAfter(ws) {
      TruthfulExactly(sha, ws, key);
      if RemovedByOther(sha, ws, key) {
        LastWriteOccurs(sha, ws, Slot(sha, key));
      }
    }
  }
}
