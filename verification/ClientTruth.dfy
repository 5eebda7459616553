/** What the attestation and tendermint clients accept and store, and on whose word. */
module ClientTruth {
  import opened Prelude
  import A = Attestation
  import T = Tendermint
  import opened ClientUpdates

  // ---------------------------------------------------------------- attestations

  /** At least the required number of distinct slots below 64 signed `data`, each with its own key. */
  ghost predicate EnoughSigned(host: A.Host, cs: A.ClientState, data: Bytes) {
    exists slots: set<U32> :: |slots| >= cs.minSigs && forall s :: s in slots ==> SlotSigned(host, cs, data, s)
  }

  ghost predicate SlotSigned(host: A.Host, cs: A.ClientState, data: Bytes, s: U32) {
    s < 64 && s < |cs.keys| && exists signature :: host.signed(cs.keys[s], data, signature)
  }

  lemma QuorumSigned(host: A.Host, cs: A.ClientState, p: A.Proof)
    requires A.Quorum(host, cs, p)
    ensures EnoughSigned(host, cs, p.data)
  {
    A.QuorumMeansSigners(host, cs, p);
    forall s | s in A.Slots(p.indices) ensures SlotSigned(host, cs, p.data, s) {
      var i :| 0 <= i < |p.signatures| && host.signed(cs.keys[s], p.data, p.signatures[i]);
    }
    assert forall s :: s in A.Slots(p.indices) ==> SlotSigned(host, cs, p.data, s);
  }

  /** A membership proof is accepted at a height only if the client knows that height and enough attestors signed
      an attestation for that very height which lists the path with the value. A frozen client accepts too. */
  lemma AcceptedIsAttested(host: A.Host, st: A.State, id: Bytes, height: U64, proof: Bytes, path: Bytes, value: Bytes)
    requires A.VerifyMembership(host, st, id, height, proof, path, value) == Some(true)
    ensures id in st.clients && (id, height) in st.consensus
    ensures exists data, att :: host.packets(data) == Some(att) && att.height == height
              && A.Compact(path, value) in att.packets && EnoughSigned(host, st.clients[id], data)
  {
    var p := host.proof(proof).value;
    QuorumSigned(host, st.clients[id], p);
    var att := host.packets(p.data).value;
    assert host.packets(p.data) == Some(att);
  }

  /** And it is accepted whenever a quorum's proof of that is presented. */
  lemma AttestedIsAccepted(host: A.Host, st: A.State, id: Bytes, height: U64, proof: Bytes, p: A.Proof, att: A.PacketAttestation, path: Bytes, value: Bytes)
    requires id in st.clients && (id, height) in st.consensus
    requires host.proof(proof) == Some(p) && A.Quorum(host, st.clients[id], p)
    requires host.packets(p.data) == Some(att) && att.height == height && A.Compact(path, value) in att.packets
    ensures A.VerifyMembership(host, st, id, height, proof, path, value) == Some(true)
    ensures value == [] ==> A.VerifyNonMembership(host, st, id, height, proof, path) == Some(true)
  {
  }

  /** The message carries `att`, signed by a quorum of the client's keys. */
  ghost predicate Says(host: A.Host, cs: A.ClientState, message: Bytes, att: A.StateAttestation) {
    exists p :: host.proof(message) == Some(p) && A.Quorum(host, cs, p) && host.state(p.data) == Some(att)
  }

  lemma VouchedSays(host: A.Host, cs: A.ClientState, message: Bytes)
    ensures A.Vouched(host, cs, message).Some? ==> Says(host, cs, message, A.Vouched(host, cs, message).value)
    ensures forall att :: Says(host, cs, message, att) ==> A.Vouched(host, cs, message) == Some(att)
  {
  }

  /** Driven by the router, a live attestation client takes exactly what a quorum says. A timestamp that
      contradicts the stored one freezes it and changes nothing else; any other is stored under its height,
      leaves all other heights alone, and raises the latest height if it is greater. */
  lemma AttestationDrivenExactly(host: A.Host, a: A.State, id: Bytes, message: Bytes, att: A.StateAttestation)
    requires id in a.clients && !a.clients[id].frozen && Says(host, a.clients[id], message, att)
    ensures var r := Driven(Attest(host, a), id, message);
            var conflict := (id, att.height) in a.consensus && a.consensus[(id, att.height)] != att.timestamp;
            && r.Some? && r.value.0 == conflict && r.value.1.Attest?
            && var a' := r.value.1.a;
               && id in a'.clients && a'.clients[id].frozen == conflict
               && a'.consensus == (if conflict then a.consensus else a.consensus[(id, att.height) := att.timestamp])
               && a'.clients[id].latest == (if !conflict && att.height > a.clients[id].latest then att.height else a.clients[id].latest)
  {
    VouchedSays(host, a.clients[id], message);
  }

  /** Anything else, and anything said to a frozen or unknown client, is refused. */
  lemma UnsaidIsRefused(host: A.Host, a: A.State, id: Bytes, message: Bytes)
    requires id in a.clients && !a.clients[id].frozen ==> forall att :: !Says(host, a.clients[id], message, att)
    ensures Driven(Attest(host, a), id, message) == None
  {
    if id in a.clients && !a.clients[id].frozen {
      VouchedSays(host, a.clients[id], message);
    }
  }

  // ---------------------------------------------------------------- headers

  /** Driven by the router, a live tendermint client takes exactly the headers that contradict the stored root of
      their height, which freeze it, and those above its latest height, whose time, validators and
      application hash it stores, each in its place. */
  lemma TendermintDrivenExactly(host: T.Host, t: T.State, id: Bytes, message: Bytes, h: T.Header)
    requires id in t.clients && !t.clients[id].frozen && host.header(message) == Some(h)
    ensures var r := Driven(Tender(host, t), id, message);
            var key := (id, h.target.height);
            var conflict := key in t.consensus && t.consensus[key].root != h.appHash;
            && (r.Some? <==> conflict || h.target.height > t.clients[id].latest.height)
            && (r.Some? ==>
                  && r.value.0 == conflict && r.value.1.Tender?
                  && var t' := r.value.1.t;
                     && id in t'.clients && t'.clients[id].frozen == conflict
                     && (conflict ==> t'.consensus == t.consensus && t'.clients[id].latest == t.clients[id].latest
                                      && t'.clients[id].frozenHeight == t.clients[id].latest)
                     && (!conflict ==>
                           && t'.clients[id].latest == h.target && key in t'.consensus
                           && t'.consensus[key].timestamp == h.timestamp && t'.consensus[key].root == h.appHash
                           && t'.consensus[key].nextValidators == h.nextValidators
                           && forall k :: k != key ==> (k in t'.consensus <==> k in t.consensus)
                                                       && (k in t.consensus ==> t'.consensus[k] == t.consensus[k])))
  {
  }

  /** A tendermint client accepts any proof exactly at a height it stores while it is not frozen, and knows the time
      of exactly those heights. */
  lemma TendermintAcceptsExactly(t: T.State, id: Bytes, height: U64)
    ensures T.AcceptsProofs(t, id, height) == Some(true) <==> (id, height) in t.consensus && id in t.clients && !t.clients[id].frozen
    ensures T.TimestampAt(t, id, height) != 0 ==> (id, height) in t.consensus
  {
  }

  /** Creation stores what it is given: the client state, and the consensus state under the given height. */
  lemma InitialisedAsGiven(ah: A.Host, a: A.State, th: T.Host, t: T.State, id: Bytes, client: Bytes, consensus: Bytes, height: U64)
    ensures var r := A.Initialise(ah, a, id, client, consensus, height);
            && (r.Some? <==> ah.clientState(client).Some?)
            && (r.Some? ==>
                  && id in r.value.clients && r.value.clients[id] == ah.clientState(client).value
                  && A.TimestampAt(r.value, id, height) == (if ah.state(consensus).Some? then ah.state(consensus).value.timestamp else 0))
    ensures var r := T.Initialise(th, t, id, client, consensus, height);
            && (r.Some? <==> th.clientState(client).Some? && th.consensus(consensus).Some?)
            && (r.Some? ==>
                  && id in r.value.clients && r.value.clients[id] == th.clientState(client).value
                  && T.TimestampAt(r.value, id, height) == th.consensus(consensus).value.timestamp)
  {
  }
}
