/** The wasm client as the light client of the two-chain model: its proof checks discharge the
    soundness hypothesis. */
module WasmSoundness {
  import opened Prelude
  import opened MerkleTree
  import opened SmtStore
  import opened ProofWire
  import W = WasmClient
  import P = ProofPipeline
  import opened StoreProofs
  import opened Router
  import opened TwoChains
  import RC = RouterContract

  /** `hist(h)` are the writes that led to the provable store of the peer's block `h`. */
  type History = U64 -> seq<Write>

  /** Every consensus state of the client carries the time of a closed block of the peer, and the root of
      the tree written from that block's provable store. */
  ghost predicate Tracks(sha: Hash, st: W.Store, peer: Chain, hist: History) {
    && peer.prefix == []
    && forall h: U64 :: h in st.consensus ==> TracksAt(sha, st.consensus[h], peer, hist, h)
  }

  ghost predicate TracksAt(sha: Hash, cons: W.ConsensusState, peer: Chain, hist: History, h: U64) {
    && h < |peer.blocks|
    && cons.timestamp == peer.blocks[h].time
    && cons.root == TreeRoot(sha, ApplyAll(sha, map[], hist(h)))
    && RC.Refines(StoreAfter(hist(h)), peer.blocks[h].state)
  }

  /** The client as the router's oracle; `decode` reads proof bytes. */
  function Clients(sha: Hash, st: W.Store, decode: Bytes -> Option<MerkleProof>): LightClients {
    LightClients(
      (q: Query, value: Bytes) =>
        if W.CheckMembership(sha, st, q.height, decode(q.proof), [q.path], value).Ok? then Accepted else Rejected,
      (q: Query) =>
        if W.CheckNonMembership(sha, st, q.height, decode(q.proof), [q.path]).Ok? then Accepted else Rejected,
      (addr: Address, client: Bytes, h: U64) => Some(if h in st.consensus then st.consensus[h].timestamp else 0),
      Some(false),
      true,
      0)
  }

  // ---------------------------------------------------------------- one proof

  lemma TrustedRoot(sha: Hash, st: W.Store, peer: Chain, hist: History, h: U64)
    requires Tracks(sha, st, peer, hist) && W.RootAt(st, h).Ok?
    ensures TracksAt(sha, st.consensus[h], peer, hist, h)
    ensures P.Trusts(st, h, TreeRoot(sha, ApplyAll(sha, map[], hist(h))))
  {
  }

  /** The proof claims what the peer's store does not hold, and breaks the hash. */
  ghost predicate FalseMember(sha: Hash, ws: seq<Write>, key: Bytes, value: Bytes, proof: MerkleProof) {
    && DecodeMembership(proof).Some?
    && var siblings := DecodeMembership(proof).value.siblings;
       && |siblings| == DEPTH && value != []
       && Fold(sha, Slot(sha, key), SlotHash(sha, P.ClaimedLeaf(sha, key, value)), siblings)
          == TreeRoot(sha, ApplyAll(sha, map[], ws))
       && !(key in StoreAfter(ws) && StoreAfter(ws)[key] == value)
       && Breaks(sha, FalseClaimEvidence(sha, ws, key, value, siblings))
  }

  /** A membership proof that the client accepts is true of the peer's store at that block, or breaks the hash. */
  lemma MemberSound(sha: Hash, st: W.Store, peer: Chain, hist: History, h: U64, proof: MerkleProof, key: Bytes, value: Bytes)
    requires Tracks(sha, st, peer, hist)
    requires W.CheckMembership(sha, st, h, Some(proof), [key], value) == Ok(())
    ensures MemberIn(peer, h, key, value) || FalseMember(sha, hist(h), key, value, proof)
  {
    TrustedRoot(sha, st, peer, hist, h);
    OnePath(key);
    AcceptedIsStored(sha, hist(h), st, h, proof, [key], value);
    assert key[0..] == key;
  }

  /** A non-membership proof that the client accepts is true of the peer's store at that block, or the last
      write into the key's slot removed another key, or the proof breaks the hash. */
  lemma AbsentSound(sha: Hash, st: W.Store, peer: Chain, hist: History, h: U64, proof: MerkleProof, key: Bytes)
    requires Tracks(sha, st, peer, hist)
    requires W.CheckNonMembership(sha, st, h, Some(proof), [key]) == Ok(())
    ensures AbsentIn(peer, h, key) || RemovedByOther(sha, hist(h), key) || BreaksWith(sha, hist(h), key, proof)
  {
    TrustedRoot(sha, st, peer, hist, h);
    AcceptedIsAbsent(sha, hist(h), st, h, proof, key);
    if key !in StoreAfter(hist(h)) {
      LacksKey(StoreAfter(hist(h)), peer.blocks[h].state, key);
      assert key[0..] == key;
    }
  }

  lemma LacksKey(store: map<Bytes, Bytes>, st: State, key: Bytes)
    requires RC.Refines(store, st) && key !in store
    ensures forall value :: !HoldsKey(st, key, value)
  {
  }

  lemma Decodes(sha: Hash, st: W.Store, h: U64, proof: Option<MerkleProof>, key: Bytes, value: Bytes)
    requires W.CheckMembership(sha, st, h, proof, [key], value).Ok? || W.CheckNonMembership(sha, st, h, proof, [key]).Ok?
    ensures proof.Some?
  {
  }

  // ---------------------------------------------------------------- the hypothesis

  /** An accepted answer that is false of the peer, with what stands behind it. */
  ghost predicate FalseAnswer(sha: Hash, st: W.Store, peer: Chain, hist: History, decode: Bytes -> Option<MerkleProof>, q: Query) {
    FalseAbsence(sha, st, peer, hist, decode, q) || exists value: Bytes :: FalsePresence(sha, st, hist, decode, q, value)
  }

  ghost predicate FalseAbsence(sha: Hash, st: W.Store, peer: Chain, hist: History, decode: Bytes -> Option<MerkleProof>, q: Query) {
    && decode(q.proof).Some?
    && W.CheckNonMembership(sha, st, q.height, decode(q.proof), [q.path]) == Ok(()) && !AbsentIn(peer, q.height, q.path)
    && (RemovedByOther(sha, hist(q.height), q.path) || BreaksWith(sha, hist(q.height), q.path, decode(q.proof).value))
  }

  ghost predicate FalsePresence(sha: Hash, st: W.Store, hist: History, decode: Bytes -> Option<MerkleProof>, q: Query, value: Bytes) {
    && decode(q.proof).Some?
    && W.CheckMembership(sha, st, q.height, decode(q.proof), [q.path], value) == Ok(())
    && FalseMember(sha, hist(q.height), q.path, value, decode(q.proof).value)
  }

  /** The wasm client is a sound light client in the sense the two-chain statements ask for, unless some
      proof it accepts breaks the hash or speaks of a key hidden by another key of its slot. */
  lemma WasmClientIsSound(sha: Hash, st: W.Store, peer: Chain, hist: History, decode: Bytes -> Option<MerkleProof>, client: Bytes)
    requires Tracks(sha, st, peer, hist)
    ensures Sound(Clients(sha, st, decode), peer, client) || exists q: Query :: FalseAnswer(sha, st, peer, hist, decode, q)
  {
    var lc := Clients(sha, st, decode);
    if !(exists q: Query :: FalseAnswer(sha, st, peer, hist, decode, q)) {
      forall q: Query, value: Bytes | lc.member(q, value) == Accepted ensures MemberIn(peer, q.height, q.path, value) {
        assert W.CheckMembership(sha, st, q.height, decode(q.proof), [q.path], value).Ok?;
        Decodes(sha, st, q.height, decode(q.proof), q.path, value);
        MemberSound(sha, st, peer, hist, q.height, decode(q.proof).value, q.path, value);
        assert FalsePresence(sha, st, hist, decode, q, value) || MemberIn(peer, q.height, q.path, value);
        assert !FalseAnswer(sha, st, peer, hist, decode, q);
      }
      forall q: Query | lc.nonMember(q) == Accepted ensures AbsentIn(peer, q.height, q.path) {
        assert W.CheckNonMembership(sha, st, q.height, decode(q.proof), [q.path]).Ok?;
        Decodes(sha, st, q.height, decode(q.proof), q.path, []);
        AbsentSound(sha, st, peer, hist, q.height, decode(q.proof).value, q.path);
        assert !FalseAnswer(sha, st, peer, hist, decode, q);
      }
      forall addr: Address, h: U64, t: U64 | lc.timestamp(addr, client, h) == Some(t) && t > 0
        ensures h < |peer.blocks| && t == peer.blocks[h].time
      {
        assert TracksAt(sha, st.consensus[h], peer, hist, h);
      }
    }
  }
}
