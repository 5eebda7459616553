/** The attestation light client: a quorum of attestor keys vouches for heights and packets. */
module Attestation {
  import opened Prelude

  datatype Error =
    | ClientNotInitialised | ClientFrozen | InvalidClientState | InvalidProof
    | SignerIndexOutOfRange | DuplicateSigner | QuorumNotMet | BadSignature

  datatype ClientState = ClientState(keys: seq<Bytes>, minSigs: U32, latest: U64, frozen: bool)

  datatype Proof = Proof(data: Bytes, signatures: seq<Bytes>, indices: seq<U32>)

  datatype StateAttestation = StateAttestation(height: U64, timestamp: U64)

  datatype Compact = Compact(path: Bytes, value: Bytes)

  datatype PacketAttestation = PacketAttestation(height: U64, packets: seq<Compact>)

  /** XDR decoding and Ed25519 verification are parameters. */
  datatype Host = Host(
    clientState: Bytes -> Option<ClientState>,
    proof: Bytes -> Option<Proof>,
    state: Bytes -> Option<StateAttestation>,
    packets: Bytes -> Option<PacketAttestation>,
    signed: (Bytes, Bytes, Bytes) -> bool)

  // ---------------------------------------------------------------- quorum

  const SLOTS := 64

  /** Signature `i` is by an existing slot below 64, over the attested data. */
  predicate SignedBySlot(host: Host, cs: ClientState, proof: Proof, i: nat)
    requires i < |proof.signatures| == |proof.indices|
  {
    && proof.indices[i] < |cs.keys| && proof.indices[i] < SLOTS
    && host.signed(cs.keys[proof.indices[i]], proof.data, proof.signatures[i])
  }

  predicate Distinct(xs: seq<U32>) {
    forall i, j :: 0 <= i < j < |xs| ==> xs[i] != xs[j]
  }

  predicate Quorum(host: Host, cs: ClientState, proof: Proof) {
    && |proof.signatures| == |proof.indices|
    && |proof.signatures| >= cs.minSigs
    && Distinct(proof.indices)
    && forall i :: 0 <= i < |proof.signatures| ==> SignedBySlot(host, cs, proof, i)
  }

  /** Returns normally exactly on a quorum. */
  method VerifyQuorum(host: Host, cs: ClientState, proof: Proof) returns (r: Option<Error>)
    ensures r == None <==> Quorum(host, cs, proof)
    ensures r == Some(InvalidProof) <==> |proof.signatures| != |proof.indices|
    ensures r == Some(QuorumNotMet) <==> |proof.signatures| == |proof.indices| && |proof.signatures| < cs.minSigs
  {
    if |proof.signatures| != |proof.indices| {
      return Some(InvalidProof);
    }
    if |proof.signatures| < cs.minSigs {
      return Some(QuorumNotMet);
    }
    var seen := new bool[SLOTS](_ => false);
    for i := 0 to |proof.indices|
      invariant forall k :: 0 <= k < i ==> SignedBySlot(host, cs, proof, k)
      invariant Distinct(proof.indices[..i])
      invariant forall s: U32 :: 0 <= s < SLOTS ==> (seen[s] <==> s in proof.indices[..i])
    {
      var slot := proof.indices[i];
      if slot >= |cs.keys| {
        assert !SignedBySlot(host, cs, proof, i);
        return Some(SignerIndexOutOfRange);
      }
      if slot >= SLOTS {
        assert !SignedBySlot(host, cs, proof, i);
        return Some(DuplicateSigner);
      }
      if seen[slot] {
        var k :| 0 <= k < i && proof.indices[..i][k] == slot;
        assert proof.indices[k] == proof.indices[i];
        return Some(DuplicateSigner);
      }
      seen[slot] := true;
      if !host.signed(cs.keys[slot], proof.data, proof.signatures[i]) {
        assert !SignedBySlot(host, cs, proof, i);
        return Some(BadSignature);
      }
      assert proof.indices[..i + 1] == proof.indices[..i] + [slot];
    }
    assert proof.indices[..|proof.indices|] == proof.indices;
    r := None;
  }

  function Slots(xs: seq<U32>): set<U32> {
    set x | x in xs
  }

  lemma {:induction false} DistinctSlots(xs: seq<U32>)
    requires Distinct(xs)
    ensures |Slots(xs)| == |xs|
  {
    if |xs| > 0 {
      var front, last := xs[..|xs| - 1], xs[|xs| - 1];
      DistinctSlots(front);
      assert xs == front + [last];
      assert Slots(xs) == Slots(front) + {last};
      assert last !in Slots(front);
    }
  }

  /** At least `m` distinct attestor slots signed the data. */
  lemma QuorumMeansSigners(host: Host, cs: ClientState, proof: Proof)
    requires Quorum(host, cs, proof)
    ensures |Slots(proof.indices)| >= cs.minSigs
    ensures forall s :: s in Slots(proof.indices) ==>
              s < |cs.keys| && s < SLOTS
              && exists i :: 0 <= i < |proof.signatures| && host.signed(cs.keys[s], proof.data, proof.signatures[i])
  {
    DistinctSlots(proof.indices);
    forall s | s in Slots(proof.indices)
      ensures s < |cs.keys| && s < SLOTS
      ensures exists i :: 0 <= i < |proof.signatures| && host.signed(cs.keys[s], proof.data, proof.signatures[i])
    {
      var i :| 0 <= i < |proof.indices| && proof.indices[i] == s;
      assert SignedBySlot(host, cs, proof, i);
    }
  }

  lemma {:induction false} BoundedSet(s: set<U32>, n: nat)
    requires forall x :: x in s ==> x < n
    ensures |s| <= n
  {
    if n == 0 {
      assert s == {};
    } else {
      var t := s - {n - 1};
      BoundedSet(t, n - 1);
      if n - 1 in s {
        assert s == t + {n - 1};
      } else {
        assert s == t;
      }
    }
  }

  lemma SlotsBounded(host: Host, cs: ClientState, proof: Proof)
    requires Quorum(host, cs, proof)
    ensures forall s :: s in Slots(proof.indices) ==> s < |cs.keys| && s < SLOTS
  {
    QuorumMeansSigners(host, cs, proof);
  }

  /** A client asking for more signatures than keys, or than 64, can never be served. */
  lemma QuorumNeedsSlots(host: Host, cs: ClientState, proof: Proof)
    requires Quorum(host, cs, proof)
    ensures cs.minSigs <= |cs.keys| && cs.minSigs <= SLOTS
  {
    DistinctSlots(proof.indices);
    SlotsBounded(host, cs, proof);
    BoundedSet(Slots(proof.indices), |cs.keys|);
    BoundedSet(Slots(proof.indices), SLOTS);
  }

  /** When more than half of the keys are required, any two quorums share a slot: nobody can get
      two conflicting statements accepted without one attestor having signed both. */
  lemma QuorumsIntersect(host: Host, cs: ClientState, p: Proof, q: Proof) returns (s: U32)
    requires Quorum(host, cs, p) && Quorum(host, cs, q) && 2 * cs.minSigs > |cs.keys|
    ensures s < |cs.keys|
    ensures exists i :: 0 <= i < |p.signatures| && host.signed(cs.keys[s], p.data, p.signatures[i])
    ensures exists j :: 0 <= j < |q.signatures| && host.signed(cs.keys[s], q.data, q.signatures[j])
  {
    var a, b := Slots(p.indices), Slots(q.indices);
    QuorumMeansSigners(host, cs, p);
    QuorumMeansSigners(host, cs, q);
    BoundedSet(a + b, |cs.keys|);
    assert |a + b| == |a| + |b| - |a * b|;
    s :| s in a * b;
  }

  // ---------------------------------------------------------------- the client's transitions

  datatype State = State(clients: map<Bytes, ClientState>, consensus: map<(Bytes, U64), U64>, frozen: set<Bytes>)

  /** An unreadable consensus state counts as timestamp zero. */
  function InitialTimestamp(host: Host, consensus: Bytes): U64 {
    match host.state(consensus)
    case Some(att) => att.timestamp
    case None => 0
  }

  function Initialise(host: Host, st: State, id: Bytes, client: Bytes, consensus: Bytes, height: U64): Option<State> {
    match host.clientState(client)
    case None => None
    case Some(cs) => Some(st.(clients := st.clients[id := cs],
                              consensus := st.consensus[(id, height) := InitialTimestamp(host, consensus)]))
  }

  /** The attestation a message carries, if a quorum of the client's keys signed it. */
  function Vouched(host: Host, cs: ClientState, message: Bytes): Option<StateAttestation> {
    match host.proof(message)
    case None => None
    case Some(proof) => if Quorum(host, cs, proof) then host.state(proof.data) else None
  }

  function CheckForMisbehaviour(host: Host, st: State, id: Bytes, message: Bytes): Option<bool> {
    if id !in st.clients then None
    else if st.clients[id].frozen then Some(false)
    else match Vouched(host, st.clients[id], message)
      case None => None
      case Some(att) => Some((id, att.height) in st.consensus && st.consensus[(id, att.height)] != att.timestamp)
  }

  function UpdateState(host: Host, st: State, id: Bytes, message: Bytes): Option<State> {
    if id !in st.clients || st.clients[id].frozen then None
    else match Vouched(host, st.clients[id], message)
      case None => None
      case Some(att) =>
        var cs := st.clients[id];
        var st' := st.(consensus := st.consensus[(id, att.height) := att.timestamp]);
        Some(if att.height > cs.latest then st'.(clients := st.clients[id := cs.(latest := att.height)]) else st')
  }

  /** The height an update returns: the attested one. */
  function UpdatedHeight(host: Host, st: State, id: Bytes, message: Bytes): U64 {
    if id !in st.clients then 0
    else match Vouched(host, st.clients[id], message)
      case Some(att) => att.height
      case None => 0
  }

  function UpdateStateOnMisbehaviour(st: State, id: Bytes): Option<State> {
    if id !in st.clients then None
    else Some(st.(clients := st.clients[id := st.clients[id].(frozen := true)], frozen := st.frozen + {id}))
  }

  /** `None` traps. The frozen flag is not consulted. */
  function VerifyMembership(host: Host, st: State, id: Bytes, height: U64, proof: Bytes, path: Bytes, value: Bytes): Option<bool> {
    if id !in st.clients then None
    else if (id, height) !in st.consensus then Some(false)
    else match host.proof(proof)
      case None => None
      case Some(p) =>
        if !Quorum(host, st.clients[id], p) then None
        else match host.packets(p.data)
          case None => None
          case Some(att) => Some(att.height == height && Compact(path, value) in att.packets)
  }

  /** Absence is attested by an empty value. */
  function VerifyNonMembership(host: Host, st: State, id: Bytes, height: U64, proof: Bytes, path: Bytes): Option<bool> {
    VerifyMembership(host, st, id, height, proof, path, [])
  }

  function TimestampAt(st: State, id: Bytes, height: U64): U64 {
    if (id, height) in st.consensus then st.consensus[(id, height)] else 0
  }

}

/** The attestation contract: persistent entries rewritten in place. */
module AttestationContract {
  import opened Prelude
  import opened Attestation

  class AttestationLightClient {
    const host: Host
    var clients: map<Bytes, ClientState>
    var consensus: map<(Bytes, U64), U64>
    var frozenIds: set<Bytes>

    ghost function View(): State
      reads this
    {
      State(clients, consensus, frozenIds)
    }

    constructor (host: Host)
      ensures this.host == host && View() == State(map[], map[], {})
    {
      this.host := host;
      clients, consensus, frozenIds := map[], map[], {};
    }

    method Initialise(id: Bytes, client: Bytes, initial: Bytes, height: U64) returns (r: Result<(), Error>)
      modifies this`clients, this`consensus
      ensures Follows(Attestation.Initialise(host, old(View()), id, client, initial, height), r, old(View()), View())
    {
      var cs := host.clientState(client);
      if cs == None {
        return Err(InvalidClientState);
      }
      clients := clients[id := cs.value];
      consensus := consensus[(id, height) := InitialTimestamp(host, initial)];
      r := Ok(());
    }

    /** Decodes a message and verifies its quorum. */
    method Attested(id: Bytes, message: Bytes) returns (r: Result<StateAttestation, Error>)
      requires id in clients
      ensures r.Ok? <==> Vouched(host, clients[id], message).Some?
      ensures r.Ok? ==> Some(r.value) == Vouched(host, clients[id], message)
    {
      var proof := host.proof(message);
      if proof == None {
        return Err(InvalidProof);
      }
      var bad := VerifyQuorum(host, clients[id], proof.value);
      if bad.Some? {
        return Err(bad.value);
      }
      var att := host.state(proof.value.data);
      r := if att == None then Err(InvalidProof) else Ok(att.value);
    }

    method CheckForMisbehaviour(id: Bytes, message: Bytes) returns (r: Result<bool, Error>)
      ensures r.Ok? <==> Attestation.CheckForMisbehaviour(host, View(), id, message).Some?
      ensures r.Ok? ==> Some(r.value) == Attestation.CheckForMisbehaviour(host, View(), id, message)
    {
      if id !in clients {
        return Err(ClientNotInitialised);
      }
      if clients[id].frozen {
        return Ok(false);
      }
      var att := Attested(id, message);
      if att.Err? {
        return Err(att.error);
      }
      var key := (id, att.value.height);
      r := Ok(if key in consensus then consensus[key] != att.value.timestamp else false);
    }

    method UpdateState(id: Bytes, message: Bytes) returns (r: Result<U64, Error>)
      modifies this`clients, this`consensus
      ensures Follows(Attestation.UpdateState(host, old(View()), id, message), r, old(View()), View())
      ensures r.Ok? ==> r.value == UpdatedHeight(host, old(View()), id, message) && (id, r.value) in consensus
    {
      if id !in clients {
        return Err(ClientNotInitialised);
      }
      var cs := clients[id];
      if cs.frozen {
        return Err(ClientFrozen);
      }
      var att := Attested(id, message);
      if att.Err? {
        return Err(att.error);
      }
      consensus := consensus[(id, att.value.height) := att.value.timestamp];
      if att.value.height > cs.latest {
        clients := clients[id := cs.(latest := att.value.height)];
      }
      r := Ok(att.value.height);
    }

    method UpdateStateOnMisbehaviour(id: Bytes) returns (r: Result<(), Error>)
      modifies this`clients, this`frozenIds
      ensures Follows(Attestation.UpdateStateOnMisbehaviour(old(View()), id), r, old(View()), View())
    {
      if id !in clients {
        return Err(ClientNotInitialised);
      }
      clients := clients[id := clients[id].(frozen := true)];
      frozenIds := frozenIds + {id};
      r := Ok(());
    }

    method VerifyMembership(id: Bytes, height: U64, proof: Bytes, path: Bytes, value: Bytes) returns (r: Result<bool, Error>)
      ensures r.Ok? <==> Attestation.VerifyMembership(host, View(), id, height, proof, path, value).Some?
      ensures r.Ok? ==> Some(r.value) == Attestation.VerifyMembership(host, View(), id, height, proof, path, value)
    {
      if id !in clients {
        return Err(ClientNotInitialised);
      }
      if (id, height) !in consensus {
        return Ok(false);
      }
      var p := host.proof(proof);
      if p == None {
        return Err(InvalidProof);
      }
      var bad := VerifyQuorum(host, clients[id], p.value);
      if bad.Some? {
        return Err(bad.value);
      }
      var att := host.packets(p.value.data);
      if att == None {
        return Err(InvalidProof);
      }
      if att.value.height != height {
        return Ok(false);
      }
      for i := 0 to |att.value.packets|
        invariant Compact(path, value) !in att.value.packets[..i]
      {
        if att.value.packets[i].path == path && att.value.packets[i].value == value {
          assert att.value.packets[i] == Compact(path, value);
          return Ok(true);
        }
        assert att.value.packets[..i + 1] == att.value.packets[..i] + [att.value.packets[i]];
      }
      assert att.value.packets[..|att.value.packets|] == att.value.packets;
      r := Ok(false);
    }
  }
}
