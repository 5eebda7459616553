/** From accepted headers to trusted roots: what the wasm client stores, on whose word, and what it
    then takes as proof. */
module HeaderTrust {
  import opened Prelude
  import opened MerkleTree
  import opened SmtStore
  import opened ProofWire
  import opened WasmClient
  import opened ProofPipeline

  // ---------------------------------------------------------------- exactly which headers are accepted

  /** Some envelope of the header carries a signature of a trusted validator over the network id, the tag
      for SCP values and a non-empty statement, or over the hash of these bytes. */
  ghost predicate SignedBy(sha: Hash, ed: Ed25519, networkId: Bytes, validators: seq<Bytes>, h: Header) {
    exists i :: 0 <= i < |h.envelopes| && EnvelopeSigned(sha, ed, networkId, validators, h.envelopes[i])
  }

  predicate EnvelopeSigned(sha: Hash, ed: Ed25519, networkId: Bytes, validators: seq<Bytes>, e: Envelope) {
    var m := networkId + [0, 0, 0, 4] + e.statement;
    && e.nodeId in validators && |e.nodeId| == 32 && |e.signature| == 64 && e.statement != []
    && (ed(m, e.signature, e.nodeId) || ed(sha(m), e.signature, e.nodeId))
  }

  /** A header that the client takes: it goes forward from a height the client knows, is signed, and does not
      contradict what is stored for its ledger. */
  ghost predicate Acceptable(sha: Hash, ed: Ed25519, st: Store, h: Header) {
    && st.client.Some? && st.client.value.frozenHeight == None
    && h.trustedHeight.Some?
    && h.trustedHeight.value.revisionHeight < h.ledgerSeq && h.trustedHeight.value.revisionHeight in st.consensus
    && |st.client.value.networkId| == 32 && SignedBy(sha, ed, st.client.value.networkId, st.client.value.trustedValidators, h)
    && (h.ledgerSeq in st.consensus ==> StoredFor(st.consensus[h.ledgerSeq], h))
  }

  /** The consensus state carries the header's time, ledger hash and state root, each in its place. */
  predicate StoredFor(c: ConsensusState, h: Header) {
    c.timestamp == h.timestamp && c.ledgerHash == h.ledgerHash && c.root == h.stateRoot
  }

  lemma SignedMeans(sha: Hash, ed: Ed25519, cs: ClientState, es: seq<Envelope>)
    ensures ScpQuorum(sha, ed, cs, es) == None <==>
      |cs.networkId| == 32 && exists i :: 0 <= i < |es| && EnvelopeSigned(sha, ed, cs.networkId, cs.trustedValidators, es[i])
  {
    forall i | 0 <= i < |es|
      ensures AcceptableEnvelope(sha, ed, cs, es[i]) <==> EnvelopeSigned(sha, ed, cs.networkId, cs.trustedValidators, es[i])
    {
    }
  }

  /** An update is accepted exactly for an acceptable header. It stores exactly that header's consensus state,
      touches no other height, and raises the latest height to the ledger if it is greater. */
  lemma AcceptedExactly(sha: Hash, ed: Ed25519, st: Store, h: Header)
    ensures var r := Updated(sha, ed, st, Some(h));
            && (r.Ok? <==> Acceptable(sha, ed, st, h))
            && (r.Ok? ==>
                  && h.ledgerSeq in r.value.consensus && StoredFor(r.value.consensus[h.ledgerSeq], h)
                  && (forall k :: k != h.ledgerSeq ==> (k in r.value.consensus <==> k in st.consensus))
                  && (forall k :: k != h.ledgerSeq && k in st.consensus ==> r.value.consensus[k] == st.consensus[k])
                  && r.value.client.Some?
                  && r.value.checksum == st.checksum
                  && r.value.client.value
                     == if h.ledgerSeq > LatestOf(st.client.value) then st.client.value.(latestHeight := Some(Height(0, h.ledgerSeq)))
                        else st.client.value)
  {
    if st.client.Some? {
      SignedMeans(sha, ed, st.client.value, h.envelopes);
    }
  }

  /** Of two headers for one ledger, the client reports misbehaviour exactly when they differ in time, ledger
      hash or state root; and a signed header is refused as a conflict exactly when it is reported. */
  lemma ConflictReported(sha: Hash, ed: Ed25519, st: Store, h: Header)
    requires st.client.Some? && st.client.value.frozenHeight == None
    ensures Misbehaves(st, Some(h)) == Ok(h.ledgerSeq in st.consensus && !StoredFor(st.consensus[h.ledgerSeq], h))
    ensures VerifyHeader(sha, ed, st, Some(h)).Ok? ==>
              (Updated(sha, ed, st, Some(h)) == Err(ConsensusStateConflict) <==> Misbehaves(st, Some(h)) == Ok(true))
  {
  }

  /** The first message decides: a client is instantiated once, from a client state that names its latest height, whose
      consensus state and checksum it then holds. */
  lemma InstantiatedExactly(st: Store, cs: Option<ClientState>, cons: Option<ConsensusState>, sum: Bytes)
    ensures var r := Instantiated(st, cs, cons, sum);
            && (r.Ok? <==> st.client == None && cs.Some? && cons.Some? && cs.value.latestHeight.Some?)
            && (r.Ok? ==>
                  && r.value.client == cs
                  && r.value.consensus == st.consensus[cs.value.latestHeight.value.revisionHeight := cons.value]
                  && (sum != [] ==> r.value.checksum == sum) && (sum == [] ==> r.value.checksum == st.checksum))
  {
  }

  /** Misbehaviour freezes an instantiated client at its latest height and changes nothing else. */
  lemma FrozenExactly(st: Store)
    ensures var r := FrozenBy(st);
            && (r.Ok? <==> st.client.Some?)
            && (r.Ok? ==>
                  && r.value.client.Some? && r.value.consensus == st.consensus && r.value.checksum == st.checksum
                  && r.value.client.value.(frozenHeight := None) == st.client.value.(frozenHeight := None)
                  && (st.client.value.latestHeight.Some? ==> r.value.client.value.frozenHeight == st.client.value.latestHeight)
                  && (st.client.value.latestHeight == None ==> r.value.client.value.frozenHeight == Some(Height(0, 0))))
  {
  }

  // ---------------------------------------------------------------- accepted headers are trusted roots

  lemma {:induction false} RunKeepsEntries(sha: Hash, ed: Ed25519, st: Store, ms: seq<Msg>, first: U64, height: U64)
    requires Consistent(st, first) && height in st.consensus
    ensures var end := Run(sha, ed, st, ms);
            end.client.Some? && height in end.consensus && end.consensus[height] == st.consensus[height]
  {
    if |ms| > 0 {
      var mid := Run(sha, ed, st, ms[..|ms| - 1]);
      RunKeepsEntries(sha, ed, st, ms[..|ms| - 1], first, height);
      RunKeeps(sha, ed, st, ms[..|ms| - 1], first);
      StepKeeps(sha, ed, mid, ms[|ms| - 1], first);
    }
  }

  /** Once the client accepted a header with a 32-byte state root, then after any further messages, as long as
      it is not frozen, it trusts exactly that root at the header's ledger, at the header's time. */
  lemma AcceptedHeaderIsTrusted(sha: Hash, ed: Ed25519, st: Store, first: U64, h: Header, ms: seq<Msg>)
    requires Consistent(st, first) && Updated(sha, ed, st, Some(h)).Ok? && |h.stateRoot| == HASH_SIZE
    ensures var end := Run(sha, ed, Updated(sha, ed, st, Some(h)).value, ms);
            !IsFrozen(end) ==>
              && RootAt(end, h.ledgerSeq) == Ok(h.stateRoot)
              && h.ledgerSeq in end.consensus && end.consensus[h.ledgerSeq].timestamp == h.timestamp
  {
    var st' := Updated(sha, ed, st, Some(h)).value;
    StepKeeps(sha, ed, st, Update(Some(h)), first);
    AcceptedExactly(sha, ed, st, h);
    RunKeepsEntries(sha, ed, st', ms, first, h.ledgerSeq);
  }

  /** End to end: a header that carries the root of the gateway's tree makes the gateway's answers, serialised
      and decoded, convince the client at that ledger of exactly what they say. */
  lemma HeaderMakesAnswersConvince(sha: Hash, ed: Ed25519, st: Store, first: U64, h: Header, ms: seq<Msg>, leaves: Leaves,
                                   key: Bytes, keyPath: seq<Bytes>, value: Bytes)
    requires Consistent(st, first) && Updated(sha, ed, st, Some(h)).Ok? && h.stateRoot == TreeRoot(sha, leaves)
    ensures var end := Run(sha, ed, Updated(sha, ed, st, Some(h)).value, ms);
            !IsFrozen(end) ==>
              ConvincesExactly(sha, LookupPath(sha, leaves, key), key, end, h.ledgerSeq, keyPath, value)
  {
    var end := Run(sha, ed, Updated(sha, ed, st, Some(h)).value, ms);
    AcceptedHeaderIsTrusted(sha, ed, st, first, h, ms);
    if !IsFrozen(end) {
      AnswerConvincesExactly(sha, leaves, key, end, h.ledgerSeq, keyPath, value);
    }
  }

  // ---------------------------------------------------------------- on whose word

  /** Some message of the run was a signed header whose consensus state this is. */
  ghost predicate Vouched(sha: Hash, ed: Ed25519, cs: ClientState, ms: seq<Msg>, height: U64, c: ConsensusState) {
    exists h: Header :: Update(Some(h)) in ms && h.ledgerSeq == height && StoredFor(c, h)
                        && |cs.networkId| == 32 && SignedBy(sha, ed, cs.networkId, cs.trustedValidators, h)
  }

  /** The validators and the network id are those of the first client state. */
  ghost predicate SameTrust(cs: ClientState, st: Store) {
    st.client.Some? && st.client.value.networkId == cs.networkId && st.client.value.trustedValidators == cs.trustedValidators
  }

  lemma VouchedStands(sha: Hash, ed: Ed25519, cs: ClientState, ms: seq<Msg>, m: Msg, height: U64, c: ConsensusState)
    requires Vouched(sha, ed, cs, ms, height, c) || Vouched(sha, ed, cs, [m], height, c)
    ensures Vouched(sha, ed, cs, ms + [m], height, c)
  {
    var h: Header :| (Update(Some(h)) in ms || Update(Some(h)) in [m]) && h.ledgerSeq == height && StoredFor(c, h)
                     && |cs.networkId| == 32 && SignedBy(sha, ed, cs.networkId, cs.trustedValidators, h);
    assert Update(Some(h)) in ms + [m];
  }

  lemma StepIsVouched(sha: Hash, ed: Ed25519, cs: ClientState, st: Store, m: Msg, height: U64)
    requires SameTrust(cs, st)
    ensures SameTrust(cs, Step(sha, ed, st, m))
    ensures height in Step(sha, ed, st, m).consensus ==>
              || (height in st.consensus && Step(sha, ed, st, m).consensus[height] == st.consensus[height])
              || Vouched(sha, ed, cs, [m], height, Step(sha, ed, st, m).consensus[height])
  {
    if m.Update? && m.header.Some? {
      AcceptedExactly(sha, ed, st, m.header.value);
      assert m == Update(Some(m.header.value));
    }
  }

  /** Over every run: a consensus state that the client holds is the first one, or a header of the run vouched for
      it: a validator trusted from the beginning signed an envelope of that header. Without such a signature
      no run adds a consensus state. */
  lemma {:induction false} EveryStateIsVouched(sha: Hash, ed: Ed25519, cs: ClientState, cons: ConsensusState, sum: Bytes, ms: seq<Msg>, height: U64)
    requires cs.latestHeight.Some?
    ensures var st := Run(sha, ed, Instantiated(Store(None, map[], []), Some(cs), Some(cons), sum).value, ms);
            && SameTrust(cs, st)
            && (height in st.consensus ==>
                  || (height == cs.latestHeight.value.revisionHeight && st.consensus[height] == cons)
                  || Vouched(sha, ed, cs, ms, height, st.consensus[height]))
  {
    if |ms| > 0 {
      var front, m := ms[..|ms| - 1], ms[|ms| - 1];
      var st := Run(sha, ed, Instantiated(Store(None, map[], []), Some(cs), Some(cons), sum).value, front);
      EveryStateIsVouched(sha, ed, cs, cons, sum, front, height);
      StepIsVouched(sha, ed, cs, st, m, height);
      assert ms == front + [m];
      var end := Step(sha, ed, st, m);
      if height in end.consensus {
        var c := end.consensus[height];
        if Vouched(sha, ed, cs, front, height, c) || Vouched(sha, ed, cs, [m], height, c) {
          VouchedStands(sha, ed, cs, front, m, height, c);
        }
      }
    }
  }
}
