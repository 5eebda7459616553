/** The 08-wasm light client of Stellar: headers, freezing, and proof checks. */
module WasmClient {
  import opened Prelude
  import opened MerkleTree
  import opened SmtStore
  import opened ProofWire

  datatype Height = Height(revisionNumber: U64, revisionHeight: U64)

  datatype Envelope = Envelope(nodeId: Bytes, statement: Bytes, signature: Bytes)

  datatype ClientState = ClientState(
    latestHeight: Option<Height>,
    frozenHeight: Option<Height>,
    trustedValidators: seq<Bytes>,
    networkId: Bytes)

  datatype ConsensusState = ConsensusState(timestamp: U64, ledgerHash: Bytes, root: Bytes)

  datatype Header = Header(
    ledgerSeq: U64,
    stateRoot: Bytes,
    envelopes: seq<Envelope>,
    trustedHeight: Option<Height>,
    timestamp: U64,
    ledgerHash: Bytes)

  datatype Error =
    | AlreadyInitialised | NotInitialised | Frozen | InvalidWire
    | ConsensusStateMissing | NonAdvancingHeight | ConsensusStateConflict
    | QuorumNotMet | NetworkIdMissing | ScpSignatureError
    | MerkleVerificationFailed | MembershipMismatch

  /** The client's storage. A message that does not decode is `None` wherever one is expected. */
  datatype Store = Store(client: Option<ClientState>, consensus: map<U64, ConsensusState>, checksum: Bytes)

  type Ed25519 = (Bytes, Bytes, Bytes) -> bool

  // ---------------------------------------------------------------- header verification

  const ENVELOPE_TYPE_SCPVALUE: Bytes := [0, 0, 0, 4]

  function SignedBytes(cs: ClientState, e: Envelope): Bytes {
    cs.networkId + ENVELOPE_TYPE_SCPVALUE + e.statement
  }

  predicate AcceptableEnvelope(sha: Hash, ed: Ed25519, cs: ClientState, e: Envelope) {
    && |e.nodeId| == 32 && |e.signature| == 64
    && e.nodeId in cs.trustedValidators
    && e.statement != []
    && (ed(SignedBytes(cs, e), e.signature, e.nodeId) || ed(sha(SignedBytes(cs, e)), e.signature, e.nodeId))
  }

  /** One acceptable envelope is enough. */
  ghost function ScpQuorum(sha: Hash, ed: Ed25519, cs: ClientState, es: seq<Envelope>): Option<Error> {
    if cs.networkId == [] then Some(NetworkIdMissing)
    else if |cs.networkId| != 32 then Some(ScpSignatureError)
    else if exists i :: 0 <= i < |es| && AcceptableEnvelope(sha, ed, cs, es[i]) then None
    else Some(QuorumNotMet)
  }

  method VerifyScpQuorum(sha: Hash, ed: Ed25519, cs: ClientState, es: seq<Envelope>) returns (r: Option<Error>)
    ensures r == ScpQuorum(sha, ed, cs, es)
  {
    if cs.networkId == [] {
      return Some(NetworkIdMissing);
    }
    if |cs.networkId| != 32 {
      return Some(ScpSignatureError);
    }
    for i := 0 to |es|
      invariant forall k :: 0 <= k < i ==> !AcceptableEnvelope(sha, ed, cs, es[k])
    {
      var e := es[i];
      if |e.nodeId| != 32 || |e.signature| != 64 {
        continue;
      }
      if e.nodeId !in cs.trustedValidators {
        continue;
      }
      if e.statement == [] {
        continue;
      }
      var preimage := cs.networkId + ENVELOPE_TYPE_SCPVALUE + e.statement;
      if ed(preimage, e.signature, e.nodeId) {
        return None;
      }
      if ed(sha(preimage), e.signature, e.nodeId) {
        return None;
      }
    }
    r := Some(QuorumNotMet);
  }

  ghost function VerifyHeader(sha: Hash, ed: Ed25519, st: Store, msg: Option<Header>): Result<Header, Error> {
    if st.client == None then Err(NotInitialised)
    else if st.client.value.frozenHeight.Some? then Err(Frozen)
    else if msg == None then Err(InvalidWire)
    else if msg.value.trustedHeight == None then Err(InvalidWire)
    else
      var trusted := msg.value.trustedHeight.value.revisionHeight;
      if msg.value.ledgerSeq <= trusted then Err(NonAdvancingHeight)
      else if trusted !in st.consensus then Err(ConsensusStateMissing)
      else match ScpQuorum(sha, ed, st.client.value, msg.value.envelopes)
        case Some(e) => Err(e)
        case None => Ok(msg.value)
  }

  // ---------------------------------------------------------------- state changes

  function ConsensusOf(h: Header): ConsensusState {
    ConsensusState(h.timestamp, h.ledgerHash, h.stateRoot)
  }

  function LatestOf(cs: ClientState): U64 {
    match cs.latestHeight
    case Some(h) => h.revisionHeight
    case None => 0
  }

  /** An empty checksum is not written. */
  function Instantiated(st: Store, client: Option<ClientState>, consensus: Option<ConsensusState>, checksum: Bytes): Result<Store, Error> {
    if st.client.Some? then Err(AlreadyInitialised)
    else if client == None || consensus == None then Err(InvalidWire)
    else if client.value.latestHeight == None then Err(InvalidWire)
    else Ok(Store(client, st.consensus[client.value.latestHeight.value.revisionHeight := consensus.value],
                  if checksum == [] then st.checksum else checksum))
  }

  ghost function Updated(sha: Hash, ed: Ed25519, st: Store, msg: Option<Header>): Result<Store, Error> {
    match VerifyHeader(sha, ed, st, msg)
    case Err(e) => Err(e)
    case Ok(h) =>
      var cs := st.client.value;
      if h.ledgerSeq in st.consensus && st.consensus[h.ledgerSeq] != ConsensusOf(h) then Err(ConsensusStateConflict)
      else
        var cs' := if h.ledgerSeq > LatestOf(cs) then cs.(latestHeight := Some(Height(0, h.ledgerSeq))) else cs;
        Ok(st.(client := Some(cs'), consensus := st.consensus[h.ledgerSeq := ConsensusOf(h)]))
  }

  function FrozenBy(st: Store): Result<Store, Error> {
    if st.client == None then Err(NotInitialised)
    else
      var cs := st.client.value;
      var latest := if cs.latestHeight.Some? then cs.latestHeight.value else Height(0, 0);
      Ok(st.(client := Some(cs.(frozenHeight := Some(latest)))))
  }

  function Misbehaves(st: Store, msg: Option<Header>): Result<bool, Error> {
    if st.client == None then Err(NotInitialised)
    else if st.client.value.frozenHeight.Some? then Ok(false)
    else if msg == None then Err(InvalidWire)
    else Ok(msg.value.ledgerSeq in st.consensus && st.consensus[msg.value.ledgerSeq] != ConsensusOf(msg.value))
  }

  // ---------------------------------------------------------------- proof checks

  function RootAt(st: Store, height: U64): Result<Digest, Error> {
    if st.client == None then Err(NotInitialised)
    else if st.client.value.frozenHeight.Some? then Err(Frozen)
    else if height !in st.consensus then Err(ConsensusStateMissing)
    else if |st.consensus[height].root| != HASH_SIZE then Err(MerkleVerificationFailed)
    else Ok(st.consensus[height].root)
  }

  function CheckMembership(sha: Hash, st: Store, height: U64, proof: Option<MerkleProof>, keyPath: seq<Bytes>,
                           value: Bytes): Result<(), Error> {
    match RootAt(st, height)
    case Err(e) => Err(e)
    case Ok(root) =>
      if proof == None then Err(InvalidWire)
      else match DecodeMembership(proof.value)
        case None => Err(MerkleVerificationFailed)
        case Some(d) =>
          var key := Concat(keyPath);
          if && d.key == key
             && d.value == sha(value)
             && |d.siblings| == DEPTH && value != []
             && Fold(sha, Slot(sha, key), LeafHash(sha, Leaf(sha(key), sha(value))), d.siblings) == root
          then Ok(()) else Err(MembershipMismatch)
  }

  function CheckNonMembership(sha: Hash, st: Store, height: U64, proof: Option<MerkleProof>,
                              keyPath: seq<Bytes>): Result<(), Error> {
    match RootAt(st, height)
    case Err(e) => Err(e)
    case Ok(root) =>
      if proof == None then Err(InvalidWire)
      else match DecodeNonMembership(proof.value)
        case None => Err(MerkleVerificationFailed)
        case Some(d) =>
          var key := Concat(keyPath);
          if d.key == key && |d.siblings| == DEPTH && Fold(sha, Slot(sha, key), EMPTY, d.siblings) == root
          then Ok(()) else Err(MerkleVerificationFailed)
  }

  // ---------------------------------------------------------------- the contract

  class Contract {
    const sha: Hash
    const ed: Ed25519
    var client: Option<ClientState>
    var consensus: map<U64, ConsensusState>
    var checksum: Bytes

    ghost function View(): Store
      reads this
    {
      Store(client, consensus, checksum)
    }

    constructor (sha: Hash, ed: Ed25519)
      ensures this.sha == sha && this.ed == ed
      ensures View() == Store(None, map[], [])
    {
      this.sha := sha;
      this.ed := ed;
      client := None;
      consensus := map[];
      checksum := [];
    }

    method Instantiate(cs: Option<ClientState>, cons: Option<ConsensusState>, sum: Bytes) returns (r: Result<(), Error>)
      modifies this
      ensures match Instantiated(old(View()), cs, cons, sum)
              case Ok(st) => r == Ok(()) && View() == st
              case Err(e) => r == Err(e) && View() == old(View())
    {
      if client.Some? {
        return Err(AlreadyInitialised);
      }
      if cs == None || cons == None {
        return Err(InvalidWire);
      }
      if cs.value.latestHeight == None {
        return Err(InvalidWire);
      }
      var height := cs.value.latestHeight.value.revisionHeight;
      if sum != [] {
        checksum := sum;
      }
      client := cs;
      consensus := consensus[height := cons.value];
      r := Ok(());
    }

    method VerifyClientMessage(msg: Option<Header>) returns (r: Result<Header, Error>)
      ensures r == VerifyHeader(sha, ed, View(), msg)
    {
      if client == None {
        return Err(NotInitialised);
      }
      if client.value.frozenHeight.Some? {
        return Err(Frozen);
      }
      if msg == None {
        return Err(InvalidWire);
      }
      var header := msg.value;
      if header.trustedHeight == None {
        return Err(InvalidWire);
      }
      var trusted := header.trustedHeight.value.revisionHeight;
      if header.ledgerSeq <= trusted {
        return Err(NonAdvancingHeight);
      }
      if trusted !in consensus {
        return Err(ConsensusStateMissing);
      }
      var quorum := VerifyScpQuorum(sha, ed, client.value, header.envelopes);
      if quorum.Some? {
        return Err(quorum.value);
      }
      r := Ok(header);
    }

    method UpdateState(msg: Option<Header>) returns (r: Result<U64, Error>)
      modifies this
      ensures match Updated(sha, ed, old(View()), msg)
              case Ok(st) => r == Ok(msg.value.ledgerSeq) && View() == st
              case Err(e) => r == Err(e) && View() == old(View())
    {
      var verified := VerifyClientMessage(msg);
      if verified.Err? {
        return Err(verified.error);
      }
      var header := verified.value;
      var newConsensus := ConsensusState(header.timestamp, header.ledgerHash, header.stateRoot);
      if header.ledgerSeq in consensus {
        if consensus[header.ledgerSeq] != newConsensus {
          return Err(ConsensusStateConflict);
        }
      }
      consensus := consensus[header.ledgerSeq := newConsensus];
      var latest := if client.value.latestHeight.Some? then client.value.latestHeight.value.revisionHeight else 0;
      if header.ledgerSeq > latest {
        client := Some(client.value.(latestHeight := Some(Height(0, header.ledgerSeq))));
      }
      r := Ok(header.ledgerSeq);
    }

    method UpdateStateOnMisbehaviour() returns (r: Result<(), Error>)
      modifies this
      ensures match FrozenBy(old(View()))
              case Ok(st) => r == Ok(()) && View() == st
              case Err(e) => r == Err(e) && View() == old(View())
    {
      if client == None {
        return Err(NotInitialised);
      }
      var latest := if client.value.latestHeight.Some? then client.value.latestHeight.value else Height(0, 0);
      client := Some(client.value.(frozenHeight := Some(latest)));
      r := Ok(());
    }

    method CheckForMisbehaviour(msg: Option<Header>) returns (r: Result<bool, Error>)
      ensures r == Misbehaves(View(), msg)
    {
      if client == None {
        return Err(NotInitialised);
      }
      if client.value.frozenHeight.Some? {
        return Ok(false);
      }
      if msg == None {
        return Err(InvalidWire);
      }
      if msg.value.ledgerSeq in consensus {
        return Ok(consensus[msg.value.ledgerSeq] != ConsensusOf(msg.value));
      }
      r := Ok(false);
    }

    method VerifyMembership(height: U64, proof: Option<MerkleProof>, keyPath: seq<Bytes>, value: Bytes)
        returns (r: Result<(), Error>)
      ensures r == CheckMembership(sha, View(), height, proof, keyPath, value)
    {
      var root := RootAt(Store(client, consensus, checksum), height);
      if root.Err? {
        return Err(root.error);
      }
      if proof == None {
        return Err(InvalidWire);
      }
      var d := DecodeMembership(proof.value);
      if d == None {
        return Err(MerkleVerificationFailed);
      }
      var key := ConcatPath(keyPath);
      var rootMatch := false;
      if |d.value.siblings| == DEPTH && value != [] {
        var leaf := LeafHash(sha, Leaf(sha(key), sha(value)));
        var computed := FoldSiblings(sha, Slot(sha, key), leaf, d.value.siblings);
        rootMatch := computed == root.value;
      }
      if d.value.key == key && d.value.value == sha(value) && rootMatch {
        return Ok(());
      }
      r := Err(MembershipMismatch);
    }

    method VerifyNonMembership(height: U64, proof: Option<MerkleProof>, keyPath: seq<Bytes>)
        returns (r: Result<(), Error>)
      ensures r == CheckNonMembership(sha, View(), height, proof, keyPath)
    {
      var root := RootAt(Store(client, consensus, checksum), height);
      if root.Err? {
        return Err(root.error);
      }
      if proof == None {
        return Err(InvalidWire);
      }
      var d := DecodeNonMembership(proof.value);
      if d == None {
        return Err(MerkleVerificationFailed);
      }
      var key := ConcatPath(keyPath);
      if d.value.key != key || |d.value.siblings| != DEPTH {
        return Err(MerkleVerificationFailed);
      }
      var computed := FoldSiblings(sha, Slot(sha, key), EMPTY, d.value.siblings);
      if computed != root.value {
        return Err(MerkleVerificationFailed);
      }
      r := Ok(());
    }
  }

  method ConcatPath(path: seq<Bytes>) returns (out: Bytes)
    ensures out == Concat(path)
  {
    out := [];
    for i := 0 to |path|
      invariant out == Concat(path[..i])
    {
      assert path[..i + 1][..i] == path[..i];
      out := out + path[i];
    }
    assert path[..|path|] == path;
  }

  // ---------------------------------------------------------------- runs

  /** The state-changing messages the host can deliver after instantiation. */
  datatype Msg = Reinstantiate(cs: Option<ClientState>, cons: Option<ConsensusState>, sum: Bytes)
    | Update(header: Option<Header>)
    | Misbehaviour

  ghost function Step(sha: Hash, ed: Ed25519, st: Store, m: Msg): Store {
    var r := match m
      case Reinstantiate(cs, cons, sum) => Instantiated(st, cs, cons, sum)
      case Update(h) => Updated(sha, ed, st, h)
      case Misbehaviour => FrozenBy(st);
    if r.Ok? then r.value else st
  }

  ghost function Run(sha: Hash, ed: Ed25519, st: Store, ms: seq<Msg>): Store {
    if |ms| == 0 then st else Step(sha, ed, Run(sha, ed, st, ms[..|ms| - 1]), ms[|ms| - 1])
  }

  predicate IsFrozen(st: Store) {
    st.client.Some? && st.client.value.frozenHeight.Some?
  }

  /** The latest height is the greatest stored one, and `first` the least. */
  ghost predicate Consistent(st: Store, first: U64) {
    && st.client.Some? && st.client.value.latestHeight.Some?
    && first in st.consensus
    && LatestOf(st.client.value) in st.consensus
    && forall h :: h in st.consensus ==> first <= h <= LatestOf(st.client.value)
  }

  /** Nothing stored is ever rewritten, the latest height never falls, and a frozen
      client stays frozen with its heights and consensus states as they were. */
  ghost predicate Extends(st: Store, st': Store) {
    && (st.client.Some? ==> st'.client.Some? && LatestOf(st.client.value) <= LatestOf(st'.client.value))
    && (st.client.Some? ==> st'.checksum == st.checksum)
    && (forall h :: h in st.consensus ==> h in st'.consensus && st'.consensus[h] == st.consensus[h])
    && (IsFrozen(st) ==> IsFrozen(st') && st'.consensus == st.consensus
                         && st'.client.value.latestHeight == st.client.value.latestHeight)
  }

  lemma StepKeeps(sha: Hash, ed: Ed25519, st: Store, m: Msg, first: U64)
    requires Consistent(st, first)
    ensures Consistent(Step(sha, ed, st, m), first)
    ensures Extends(st, Step(sha, ed, st, m))
  {
  }

  lemma {:induction false} RunKeeps(sha: Hash, ed: Ed25519, st: Store, ms: seq<Msg>, first: U64)
    requires Consistent(st, first)
    ensures Consistent(Run(sha, ed, st, ms), first)
  {
    if |ms| > 0 {
      RunKeeps(sha, ed, st, ms[..|ms| - 1], first);
      StepKeeps(sha, ed, Run(sha, ed, st, ms[..|ms| - 1]), ms[|ms| - 1], first);
    }
  }

  /** Over any run from an instantiated client, at any two moments of the run. */
  lemma {:induction false} RunExtends(sha: Hash, ed: Ed25519, cs: ClientState, cons: ConsensusState, sum: Bytes, ms: seq<Msg>, k: nat)
    requires k <= |ms|
    requires cs.latestHeight.Some?
    ensures var first := cs.latestHeight.value.revisionHeight;
            var st0 := Instantiated(Store(None, map[], []), Some(cs), Some(cons), sum).value;
            var st, st' := Run(sha, ed, st0, ms[..k]), Run(sha, ed, st0, ms);
            Consistent(st', first) && Extends(st, st')
    decreases |ms|
  {
    var first := cs.latestHeight.value.revisionHeight;
    var st0 := Instantiated(Store(None, map[], []), Some(cs), Some(cons), sum).value;
    RunKeeps(sha, ed, st0, ms, first);
    if k == |ms| {
      assert ms[..k] == ms;
    } else {
      var front := ms[..|ms| - 1];
      assert front[..k] == ms[..k];
      RunExtends(sha, ed, cs, cons, sum, front, k);
      RunKeeps(sha, ed, st0, front, first);
      StepKeeps(sha, ed, Run(sha, ed, st0, front), ms[|ms| - 1], first);
    }
  }

  /** Once frozen at some moment, every later header and every later proof is refused. */
  lemma FrozenForGood(sha: Hash, ed: Ed25519, cs: ClientState, cons: ConsensusState, sum: Bytes, ms: seq<Msg>, k: nat,
                      header: Option<Header>, height: U64, proof: Option<MerkleProof>, keyPath: seq<Bytes>, value: Bytes)
    requires k <= |ms|
    requires cs.latestHeight.Some?
    requires IsFrozen(Run(sha, ed, Instantiated(Store(None, map[], []), Some(cs), Some(cons), sum).value, ms[..k]))
    ensures var st := Run(sha, ed, Instantiated(Store(None, map[], []), Some(cs), Some(cons), sum).value, ms);
            && Updated(sha, ed, st, header) == Err(Frozen)
            && CheckMembership(sha, st, height, proof, keyPath, value) == Err(Frozen)
            && CheckNonMembership(sha, st, height, proof, keyPath) == Err(Frozen)
  {
    RunExtends(sha, ed, cs, cons, sum, ms, k);
  }
}
