/** What router-driven light clients keep over every run. */
module ClientRuns {
  import opened Prelude
  import opened Commitments
  import opened ClientIds
  import opened Router
  import opened RouterRuns
  import opened ClientUpdates
  import T = Tendermint

  // ---------------------------------------------------------------- one client across a step

  predicate Hosted(hub: Hub, id: Bytes) {
    id in hub.router.lcAddr && hub.router.lcAddr[id] in hub.lcs
  }

  function MachineOf(hub: Hub, id: Bytes): Machine
    requires Hosted(hub, id)
  {
    hub.lcs[hub.router.lcAddr[id]]
  }

  /** The client stays where it is, nothing stored for it is replaced, it is frozen by the router
      or not at all, and a frozen client is fixed for good. */
  ghost predicate Tracks(hub: Hub, hub': Hub, id: Bytes)
    requires Hosted(hub, id)
  {
    && Hosted(hub', id) && hub'.router.lcAddr[id] == hub.router.lcAddr[id]
    && Kept(MachineOf(hub, id), MachineOf(hub', id), id)
    && (Frozen(MachineOf(hub', id), id) <==> Frozen(MachineOf(hub, id), id) || id in hub'.router.frozen)
    && (Frozen(MachineOf(hub, id), id) ==>
          && Same(MachineOf(hub, id), MachineOf(hub', id), id)
          && (id in hub'.router.frozen <==> id in hub.router.frozen))
  }

  /** Entry points other than creation and update leave the clients alone. */
  lemma PlainLeavesClients(sha: Hash, st: State, env: Env, a: Action)
    requires IdsMinted(st) && !a.DoCreateClient? && !a.DoUpdateClient? && Exec(sha, st, env, a).Ok?
    ensures var st' := Exec(sha, st, env, a).value;
            && st'.lcAddr == st.lcAddr && st'.frozen == st.frozen
            && st'.clientType == st.clientType && st'.nextClientId == st.nextClientId
            && st.counterparty.Keys <= st'.counterparty.Keys <= st.clientType.Keys
  {
    match a
    case DoRegisterPort(port, app) =>
    case DoRegisterClientType(clientType, lc) =>
    case DoRegisterCounterparty(client, peer, prefix) =>
    case DoSend(client, timeout, payloads) => SendSends(sha, st, env, client, timeout, payloads);
    case DoRecv(p, proof, height) => RecvReceives(sha, st, env, p, proof, height);
    case DoWriteAck(client, sequence, acks) =>
    case DoAcknowledge(p, acks, proof, height) => AcknowledgeSettles(sha, st, env, p, acks, proof, height);
    case DoTimeout(p, proof, height) => TimeoutSettles(sha, st, env, p, proof, height);
  }

  lemma PlainKeepsHub(sha: Hash, hub: Hub, env: Env, a: Action)
    requires HubInv(hub) && ExecHub(sha, hub, env, Plain(a)).Ok?
    ensures var hub' := ExecHub(sha, hub, env, Plain(a)).value;
            HubInv(hub') && forall id :: Hosted(hub, id) ==> Tracks(hub, hub', id)
  {
    var hub' := ExecHub(sha, hub, env, Plain(a)).value;
    PlainLeavesClients(sha, hub.router, env.(lc := Oracle(hub, env.lc)), a);
    IdsUntouched(hub.router, hub'.router);
    SameClientsKeep(hub, hub');
  }

  lemma SameClientsKeep(hub: Hub, hub': Hub)
    requires HubInv(hub) && IdsMinted(hub'.router) && hub'.lcs == hub.lcs
    requires hub'.router.lcAddr == hub.router.lcAddr && hub'.router.frozen == hub.router.frozen
    ensures HubInv(hub') && forall id :: Hosted(hub, id) ==> Tracks(hub, hub', id)
  {
    forall id: Bytes
      ensures ClientOk(hub', id)
      ensures Hosted(hub, id) ==> Tracks(hub, hub', id)
    {
      assert ClientOk(hub, id);
      SameClientKeeps(hub, hub', id);
    }
  }

  lemma SameClientKeeps(hub: Hub, hub': Hub, id: Bytes)
    requires ClientOk(hub, id) && hub'.lcs == hub.lcs && hub'.router.lcAddr == hub.router.lcAddr
    requires id in hub'.router.frozen <==> id in hub.router.frozen
    ensures ClientOk(hub', id)
    ensures Hosted(hub, id) ==> Tracks(hub, hub', id)
  {
  }

  // ---------------------------------------------------------------- creation

  /** What a successful creation does. The minted id is fresh, so it never re-initialises a client. */
  lemma Created(hub: Hub, env: Env, ty: Bytes, client: Bytes, consensus: Bytes, height: U64, hub': Hub) returns (id: Bytes)
    requires HubInv(hub) && ExecCreate(hub, env, ty, client, consensus, height) == Ok(hub')
    ensures Minted(ty, NextClient(hub.router, ty)) == Some(id) && id !in hub.router.lcAddr
    ensures ty in hub.router.typeAddr && IdsMinted(hub'.router)
    ensures hub'.router.lcAddr == hub.router.lcAddr[id := hub.router.typeAddr[ty]] && hub'.router.frozen == hub.router.frozen
    ensures var addr := hub.router.typeAddr[ty];
            if addr !in hub.lcs then hub'.lcs == hub.lcs
            else Init(hub.lcs[addr], id, client, consensus, height).Some?
                 && hub'.lcs == hub.lcs[addr := Init(hub.lcs[addr], id, client, consensus, height).value]
  {
    id := Minted(ty, NextClient(hub.router, ty)).value;
    FreshClientId(hub.router, ty);
    CreateClientMints(hub.router, CreateEnv(hub, env, ty, client, consensus, height), ty);
  }

  lemma CreateKeepsHub(hub: Hub, env: Env, ty: Bytes, client: Bytes, consensus: Bytes, height: U64)
    requires HubInv(hub) && ExecCreate(hub, env, ty, client, consensus, height).Ok?
    ensures var hub' := ExecCreate(hub, env, ty, client, consensus, height).value;
            HubInv(hub') && forall x :: Hosted(hub, x) ==> Tracks(hub, hub', x)
  {
    var hub' := ExecCreate(hub, env, ty, client, consensus, height).value;
    var id := Created(hub, env, ty, client, consensus, height, hub');
    var addr := hub.router.typeAddr[ty];
    forall x: Bytes
      ensures ClientOk(hub', x)
      ensures Hosted(hub, x) ==> Tracks(hub, hub', x)
    {
      assert ClientOk(hub, x);
      if addr in hub.lcs {
        CreateKeepsClient(hub, id, addr, client, consensus, height, hub', x);
      } else if x != id {
        SameButFor(hub, hub', id, x);
      }
    }
  }

  lemma SameButFor(hub: Hub, hub': Hub, id: Bytes, x: Bytes)
    requires ClientOk(hub, x) && x != id && hub'.lcs == hub.lcs && hub'.router.frozen == hub.router.frozen
    requires id in hub'.router.lcAddr && hub'.router.lcAddr == hub.router.lcAddr[id := hub'.router.lcAddr[id]]
    ensures ClientOk(hub', x)
    ensures Hosted(hub, x) ==> Tracks(hub, hub', x)
  {
  }

  lemma CreateKeepsClient(hub: Hub, id: Bytes, addr: Address, client: Bytes, consensus: Bytes, height: U64, hub': Hub, x: Bytes)
    requires ClientOk(hub, x) && id !in hub.router.lcAddr && addr in hub.lcs
    requires Init(hub.lcs[addr], id, client, consensus, height).Some?
    requires hub'.lcs == hub.lcs[addr := Init(hub.lcs[addr], id, client, consensus, height).value]
    requires hub'.router.lcAddr == hub.router.lcAddr[id := addr] && hub'.router.frozen == hub.router.frozen
    ensures ClientOk(hub', x)
    ensures Hosted(hub, x) ==> Tracks(hub, hub', x)
  {
    if x != id {
      InitSpares(hub.lcs[addr], id, client, consensus, height, x);
    }
  }

  // ---------------------------------------------------------------- updating

  lemma UpdateKeepsHub(hub: Hub, env: Env, id: Bytes, message: Bytes)
    requires HubInv(hub) && ExecUpdate(hub, env, id, message).Ok?
    ensures var hub' := ExecUpdate(hub, env, id, message).value;
            HubInv(hub') && forall x :: Hosted(hub, x) ==> Tracks(hub, hub', x)
  {
    var hub' := ExecUpdate(hub, env, id, message).value;
    IdsUntouched(hub.router, hub'.router);
    forall x: Bytes
      ensures ClientOk(hub', x)
      ensures Hosted(hub, x) ==> Tracks(hub, hub', x)
    {
      assert ClientOk(hub, x);
      if Hosted(hub, id) {
        UpdateKeepsClient(hub, id, message, hub', x);
      } else if x != id {
        SameClientKeeps(hub, hub', x);
      }
    }
  }

  lemma UpdateKeepsClient(hub: Hub, id: Bytes, message: Bytes, hub': Hub, x: Bytes)
    requires ClientOk(hub, x) && Hosted(hub, id) && Driven(MachineOf(hub, id), id, message).Some?
    requires var (bad, m) := Driven(MachineOf(hub, id), id, message).value;
             && hub'.lcs == hub.lcs[hub.router.lcAddr[id] := m]
             && hub'.router.lcAddr == hub.router.lcAddr
             && hub'.router.frozen == hub.router.frozen + (if bad then {id} else {})
    ensures ClientOk(hub', x)
    ensures Hosted(hub, x) ==> Tracks(hub, hub', x)
  {
    DrivenClient(MachineOf(hub, id), id, message);
    if x != id {
      DrivenSpares(MachineOf(hub, id), id, message, x);
    }
  }

  // ---------------------------------------------------------------- runs

  lemma ExecHubKeeps(sha: Hash, hub: Hub, env: Env, a: HubAction)
    requires HubInv(hub) && ExecHub(sha, hub, env, a).Ok?
    ensures var hub' := ExecHub(sha, hub, env, a).value;
            HubInv(hub') && forall id :: Hosted(hub, id) ==> Tracks(hub, hub', id)
  {
    match a
    case Create(ty, client, consensus, height) => CreateKeepsHub(hub, env, ty, client, consensus, height);
    case Update(id, message) => UpdateKeepsHub(hub, env, id, message);
    case Plain(action) => PlainKeepsHub(sha, hub, env, action);
  }

  lemma TracksTrans(a: Hub, b: Hub, c: Hub, id: Bytes)
    requires HubInv(b) && Hosted(a, id) && Tracks(a, b, id) && Tracks(b, c, id)
    ensures Tracks(a, c, id)
  {
    assert ClientOk(b, id);
  }

  lemma {:induction false} RunHubKeeps(sha: Hash, hub: Hub, txs: seq<HubTx>)
    requires HubInv(hub)
    ensures HubInv(RunHub(sha, hub, txs))
  {
    if |txs| > 0 {
      var mid, tx := RunHub(sha, hub, txs[..|txs| - 1]), txs[|txs| - 1];
      RunHubKeeps(sha, hub, txs[..|txs| - 1]);
      if ExecHub(sha, mid, tx.env, tx.action).Ok? {
        ExecHubKeeps(sha, mid, tx.env, tx.action);
      }
    }
  }

  lemma {:induction false} RunHubTracks(sha: Hash, hub: Hub, txs: seq<HubTx>, id: Bytes)
    requires HubInv(hub) && Hosted(hub, id)
    ensures Tracks(hub, RunHub(sha, hub, txs), id)
  {
    if |txs| == 0 {
      assert ClientOk(hub, id);
    } else {
      var front, tx := txs[..|txs| - 1], txs[|txs| - 1];
      var mid := RunHub(sha, hub, front);
      RunHubTracks(sha, hub, front, id);
      RunHubKeeps(sha, hub, front);
      if ExecHub(sha, mid, tx.env, tx.action).Ok? {
        ExecHubKeeps(sha, mid, tx.env, tx.action);
        TracksTrans(hub, mid, RunHub(sha, hub, txs), id);
      }
    }
  }

  /** Every state reached from deployment keeps the invariant. */
  lemma ArisesInv(sha: Hash, hub: Hub)
    requires Arises(sha, hub)
    ensures HubInv(hub)
  {
    var admin: Address, lcs: map<Address, Machine>, txs: seq<HubTx> :|
      FreshContracts(lcs) && hub == RunHub(sha, Hub(Initial(admin), lcs), txs);
    FreshHub(admin, lcs);
    RunHubKeeps(sha, Hub(Initial(admin), lcs), txs);
  }

  // ---------------------------------------------------------------- the theorems

  /** Driven through the router, an attestation client never has a stored timestamp changed, and a
      tendermint client never a stored root, although their own `update_state` may overwrite. */
  lemma ConsensusNeverChanges(sha: Hash, hub: Hub, txs: seq<HubTx>, id: Bytes, h: U64)
    requires Arises(sha, hub) && Hosted(hub, id)
    ensures var end := RunHub(sha, hub, txs);
            && Hosted(end, id)
            && var m, m' := MachineOf(hub, id), MachineOf(end, id);
               && (m.Attest? && Stamp(m, id, h).Some? ==> m'.Attest? && Stamp(m', id, h) == Stamp(m, id, h))
               && (m.Tender? && Root(m, id, h).Some? ==> m'.Tender? && Root(m', id, h) == Root(m, id, h))
  {
    ArisesInv(sha, hub);
    RunHubTracks(sha, hub, txs, id);
  }

  /** The router's flag and the client's agree, over every run after its creation, if and only if
      the client state it was created with was not frozen: a client created frozen stays so while
      the router's flag stays down. */
  lemma FlagsAgreeExactly(sha: Hash, hub: Hub, env: Env, ty: Bytes, client: Bytes, consensus: Bytes, height: U64,
                          txs: seq<HubTx>, hub': Hub, id: Bytes)
    requires Arises(sha, hub) && ExecCreate(hub, env, ty, client, consensus, height) == Ok(hub')
    requires Minted(ty, NextClient(hub.router, ty)) == Some(id) && Hosted(hub', id)
    ensures var end := RunHub(sha, hub', txs);
            && Hosted(end, id)
            && ((Frozen(MachineOf(end, id), id) <==> id in end.router.frozen) <==> !Frozen(MachineOf(hub', id), id))
  {
    ArisesInv(sha, hub);
    var x := Created(hub, env, ty, client, consensus, height, hub');
    assert ClientOk(hub, id);
    CreateKeepsHub(hub, env, ty, client, consensus, height);
    RunHubTracks(sha, hub', txs, id);
  }

  /** A frozen client is frozen for good, with everything stored for it fixed. */
  lemma FrozenForGood(sha: Hash, hub: Hub, txs: seq<HubTx>, id: Bytes)
    requires Arises(sha, hub) && Hosted(hub, id) && Frozen(MachineOf(hub, id), id)
    ensures var end := RunHub(sha, hub, txs);
            Hosted(end, id) && Same(MachineOf(hub, id), MachineOf(end, id), id)
  {
    ArisesInv(sha, hub);
    RunHubTracks(sha, hub, txs, id);
  }

  lemma FrozenTenderRejects(hub: Hub, lc: LightClients, id: Bytes, q: Query, value: Bytes)
    requires Hosted(hub, id) && MachineOf(hub, id).Tender? && Frozen(MachineOf(hub, id), id)
    requires q.client == id && q.lc == hub.router.lcAddr[id]
    ensures Oracle(hub, lc).member(q, value) == Rejected && Oracle(hub, lc).nonMember(q) == Rejected
  {
    var m := MachineOf(hub, id);
    assert T.AcceptsProofs(m.t, id, q.height) == Some(false);
    assert Member(m, q, value) == Rejected && NonMember(m, q) == Rejected;
    assert q.lc in hub.lcs && hub.lcs[q.lc] == m;
  }

  /** After a tendermint client froze, over every continuation, no receive, acknowledgement or
      timeout through it succeeds. */
  lemma FrozenTenderStops(sha: Hash, hub: Hub, txs: seq<HubTx>, env: Env, p: Packet, acks: seq<Bytes>, proof: Bytes, height: U64, id: Bytes)
    requires Arises(sha, hub) && Hosted(hub, id) && MachineOf(hub, id).Tender? && Frozen(MachineOf(hub, id), id)
    ensures var end := RunHub(sha, hub, txs);
            && (p.destClient == id ==> ExecHub(sha, end, env, Plain(DoRecv(p, proof, height))).Err?)
            && (p.sourceClient == id ==> ExecHub(sha, end, env, Plain(DoAcknowledge(p, acks, proof, height))).Err?)
            && (p.sourceClient == id ==> ExecHub(sha, end, env, Plain(DoTimeout(p, proof, height))).Err?)
  {
    ArisesInv(sha, hub);
    RunHubTracks(sha, hub, txs, id);
    var end := RunHub(sha, hub, txs);
    FrozenTenderRefuses(sha, end, env, p, acks, proof, height, id);
    PlainRefused(sha, end, env, DoRecv(p, proof, height));
    PlainRefused(sha, end, env, DoAcknowledge(p, acks, proof, height));
    PlainRefused(sha, end, env, DoTimeout(p, proof, height));
  }

  lemma PlainRefused(sha: Hash, hub: Hub, env: Env, a: Action)
    ensures Exec(sha, hub.router, env.(lc := Oracle(hub, env.lc)), a).Err? ==> ExecHub(sha, hub, env, Plain(a)).Err?
  {
  }

  lemma FrozenTenderRefuses(sha: Hash, hub: Hub, env: Env, p: Packet, acks: seq<Bytes>, proof: Bytes, height: U64, id: Bytes)
    requires Hosted(hub, id) && MachineOf(hub, id).Tender? && Frozen(MachineOf(hub, id), id)
    ensures var e := env.(lc := Oracle(hub, env.lc));
            && (p.destClient == id ==> Exec(sha, hub.router, e, DoRecv(p, proof, height)).Err?)
            && (p.sourceClient == id ==> Exec(sha, hub.router, e, DoAcknowledge(p, acks, proof, height)).Err?)
            && (p.sourceClient == id ==> Exec(sha, hub.router, e, DoTimeout(p, proof, height)).Err?)
  {
    var oracle := Oracle(hub, env.lc);
    forall q: Query, value: Bytes | q.client == id && q.lc == hub.router.lcAddr[id] ensures oracle.member(q, value) == Rejected {
      FrozenTenderRejects(hub, env.lc, id, q, value);
    }
    forall q: Query | q.client == id && q.lc == hub.router.lcAddr[id] ensures oracle.nonMember(q) == Rejected {
      FrozenTenderRejects(hub, env.lc, id, q, []);
    }
  }
}
