/** When the consensus states of a router-driven tendermint client are write-once. */
module TenderConsensus {
  import opened Prelude
  import opened ClientIds
  import opened Router
  import opened RouterRuns
  import opened ClientUpdates
  import opened ClientRuns
  import S = Settleable
  import T = Tendermint

  predicate Tendered(hub: Hub, id: Bytes) {
    Hosted(hub, id) && MachineOf(hub, id).Tender?
  }

  function ClientsState(hub: Hub, id: Bytes): T.State
    requires Tendered(hub, id)
  {
    MachineOf(hub, id).t
  }

  /** Every consensus state of `id` is still there, unchanged. */
  ghost predicate EntriesKept(t: T.State, t': T.State, id: Bytes) {
    forall h: U64 :: (id, h) in t.consensus ==> (id, h) in t'.consensus && t'.consensus[(id, h)] == t.consensus[(id, h)]
  }

  ghost predicate StaysOrdered(hub: Hub, hub': Hub, id: Bytes)
    requires Tendered(hub, id)
  {
    && Tendered(hub', id) && T.BelowLatest(ClientsState(hub', id), id)
    && EntriesKept(ClientsState(hub, id), ClientsState(hub', id), id)
  }

  ghost predicate MachineOrdered(m: Machine, m': Machine, id: Bytes)
    requires m.Tender?
  {
    m'.Tender? && T.BelowLatest(m'.t, id) && EntriesKept(m.t, m'.t, id)
  }

  lemma InitStaysOrdered(m: Machine, x: Bytes, client: Bytes, consensus: Bytes, height: U64, id: Bytes)
    requires m.Tender? && T.BelowLatest(m.t, id) && x != id && Init(m, x, client, consensus, height).Some?
    ensures MachineOrdered(m, Init(m, x, client, consensus, height).value, id)
  {
  }

  lemma DrivenStaysOrdered(m: Machine, x: Bytes, message: Bytes, id: Bytes)
    requires m.Tender? && T.BelowLatest(m.t, id) && Driven(m, x, message).Some?
    ensures MachineOrdered(m, Driven(m, x, message).value.1, id)
  {
    if x == id && !Driven(m, x, message).value.0 {
      T.UpdateAddsOnly(m.thost, m.t, id, message);
    }
  }

  lemma CreateStaysOrdered(hub: Hub, env: Env, ty: Bytes, client: Bytes, consensus: Bytes, height: U64, hub': Hub, id: Bytes)
    requires HubInv(hub) && Tendered(hub, id) && T.BelowLatest(ClientsState(hub, id), id)
    requires ExecCreate(hub, env, ty, client, consensus, height) == Ok(hub')
    ensures StaysOrdered(hub, hub', id)
  {
    var minted := Created(hub, env, ty, client, consensus, height, hub');
    if hub.router.typeAddr[ty] == hub.router.lcAddr[id] {
      InitStaysOrdered(MachineOf(hub, id), minted, client, consensus, height, id);
    }
  }

  /** What a successful update does to the contracts. */
  ghost predicate Updates(hub: Hub, x: Bytes, message: Bytes, hub': Hub) {
    && hub'.router.lcAddr == hub.router.lcAddr && x in hub.router.lcAddr
    && if !Hosted(hub, x) then hub'.lcs == hub.lcs
       else Driven(MachineOf(hub, x), x, message).Some?
            && hub'.lcs == hub.lcs[hub.router.lcAddr[x] := Driven(MachineOf(hub, x), x, message).value.1]
  }

  lemma UpdateUpdates(hub: Hub, env: Env, x: Bytes, message: Bytes)
    requires ExecUpdate(hub, env, x, message).Ok?
    ensures Updates(hub, x, message, ExecUpdate(hub, env, x, message).value)
  {
  }

  lemma UpdateStaysOrdered(hub: Hub, x: Bytes, message: Bytes, hub': Hub, id: Bytes)
    requires Tendered(hub, id) && T.BelowLatest(ClientsState(hub, id), id) && Updates(hub, x, message, hub')
    ensures StaysOrdered(hub, hub', id)
  {
    if hub.router.lcAddr[x] == hub.router.lcAddr[id] {
      DrivenStaysOrdered(MachineOf(hub, id), x, message, id);
    }
  }

  lemma PlainStaysOrdered(sha: Hash, hub: Hub, env: Env, a: Action, hub': Hub, id: Bytes)
    requires HubInv(hub) && Tendered(hub, id) && T.BelowLatest(ClientsState(hub, id), id)
    requires ExecHub(sha, hub, env, Plain(a)) == Ok(hub')
    ensures StaysOrdered(hub, hub', id)
  {
    PlainLeavesClients(sha, hub.router, env.(lc := Oracle(hub, env.lc)), a);
  }

  lemma {:induction false} RunStaysOrdered(sha: Hash, hub: Hub, txs: seq<HubTx>, id: Bytes)
    requires HubInv(hub) && Tendered(hub, id) && T.BelowLatest(ClientsState(hub, id), id)
    ensures StaysOrdered(hub, RunHub(sha, hub, txs), id)
  {
    if |txs| > 0 {
      var front, tx := txs[..|txs| - 1], txs[|txs| - 1];
      var mid, end := RunHub(sha, hub, front), RunHub(sha, hub, txs);
      RunStaysOrdered(sha, hub, front, id);
      RunHubKeeps(sha, hub, front);
      if ExecHub(sha, mid, tx.env, tx.action).Ok? {
        match tx.action
        case Create(ty, client, consensus, height) => CreateStaysOrdered(mid, tx.env, ty, client, consensus, height, end, id);
        case Update(x, message) =>
          UpdateUpdates(mid, tx.env, x, message);
          UpdateStaysOrdered(mid, x, message, end, id);
        case Plain(a) => PlainStaysOrdered(sha, mid, tx.env, a, end, id);
      }
    }
  }

  /** A consensus state stored above the latest height is replaced by a header for its height with
      the same root. */
  lemma Rewritten(hub: Hub, env: Env, id: Bytes, message: Bytes, header: T.Header)
    requires Tendered(hub, id) && !Frozen(MachineOf(hub, id), id) && id !in hub.router.frozen
    requires id in ClientsState(hub, id).clients && (id, header.target.height) in ClientsState(hub, id).consensus
    requires header.target.height > ClientsState(hub, id).clients[id].latest.height
    requires MachineOf(hub, id).thost.header(message) == Some(header)
    requires ClientsState(hub, id).consensus[(id, header.target.height)].root == header.appHash
    ensures var r := ExecUpdate(hub, env, id, message);
            && r.Ok? && Tendered(r.value, id)
            && (id, header.target.height) in ClientsState(r.value, id).consensus
            && ClientsState(r.value, id).consensus[(id, header.target.height)].timestamp == header.timestamp
  {
    var m := MachineOf(hub, id);
    assert Check(m, id, message) == Some(false);
    assert Driven(m, id, message) == Some((false, Advance(m, id, message).value));
  }

  /** Any header can be presented as some message. */
  ghost predicate AllHeadersEncodable(host: T.Host) {
    forall header: T.Header :: exists message: Bytes :: host.header(message) == Some(header)
  }

  ghost predicate FixedForever(sha: Hash, hub: Hub, id: Bytes)
    requires Tendered(hub, id)
  {
    forall txs: seq<HubTx> :: Tendered(RunHub(sha, hub, txs), id)
                              && EntriesKept(ClientsState(hub, id), ClientsState(RunHub(sha, hub, txs), id), id)
  }

  /** The consensus states of a live client never change over any run if and only if none of them lies
      above the client's latest height. */
  lemma FixedExactly(sha: Hash, hub: Hub, id: Bytes)
    requires HubInv(hub) && Tendered(hub, id) && !Frozen(MachineOf(hub, id), id)
    requires AllHeadersEncodable(MachineOf(hub, id).thost)
    ensures FixedForever(sha, hub, id) <==> T.BelowLatest(ClientsState(hub, id), id)
  {
    assert ClientOk(hub, id);
    if T.BelowLatest(ClientsState(hub, id), id) {
      forall txs: seq<HubTx> ensures StaysOrdered(hub, RunHub(sha, hub, txs), id) {
        RunStaysOrdered(sha, hub, txs, id);
      }
    } else {
      var h: U64 :| (id, h) in ClientsState(hub, id).consensus && h > ClientsState(hub, id).clients[id].latest.height;
      NotFixed(sha, hub, id, h);
    }
  }

  lemma NotFixed(sha: Hash, hub: Hub, id: Bytes, h: U64)
    requires Tendered(hub, id) && !Frozen(MachineOf(hub, id), id) && id !in hub.router.frozen
    requires AllHeadersEncodable(MachineOf(hub, id).thost) && id in ClientsState(hub, id).clients
    requires (id, h) in ClientsState(hub, id).consensus && h > ClientsState(hub, id).clients[id].latest.height
    ensures !FixedForever(sha, hub, id)
  {
    var was := ClientsState(hub, id).consensus[(id, h)];
    var header := T.Header(T.Height(0, h), if was.timestamp == 0 then 1 else 0, was.nextValidators, was.root);
    var message: Bytes :| MachineOf(hub, id).thost.header(message) == Some(header);
    var env := S.BestCase();
    Rewritten(hub, env, id, message, header);
    var txs := [HubTx(env, Update(id, message))];
    assert txs[..0] == [];
    assert RunHub(sha, hub, txs[..0]) == hub;
    assert RunHub(sha, hub, txs) == ExecUpdate(hub, env, id, message).value;
  }

  /** So a freshly created client is write-once exactly when it is created at a height not above the
      latest height in its own client state. */
  lemma CreatedFixedExactly(sha: Hash, hub: Hub, env: Env, ty: Bytes, client: Bytes, consensus: Bytes, height: U64, hub': Hub, id: Bytes)
    requires Arises(sha, hub) && ExecCreate(hub, env, ty, client, consensus, height) == Ok(hub')
    requires Minted(ty, NextClient(hub.router, ty)) == Some(id) && Tendered(hub', id) && !Frozen(MachineOf(hub', id), id)
    requires AllHeadersEncodable(MachineOf(hub', id).thost)
    ensures MachineOf(hub', id).thost.clientState(client).Some?
    ensures FixedForever(sha, hub', id)
       <==> height <= MachineOf(hub', id).thost.clientState(client).value.latest.height
  {
    ArisesInv(sha, hub);
    var minted := Created(hub, env, ty, client, consensus, height, hub');
    assert ClientOk(hub, id);
    var addr := hub.router.typeAddr[ty];
    var m := hub.lcs[addr];
    assert forall h: U64 :: Stamp(m, id, h) == None;
    forall h: U64 ensures (id, h) !in m.t.consensus {
      assert Stamp(m, id, h) == None;
    }
    T.InitialiseBelowLatest(m.thost, m.t, id, client, consensus, height);
    CreateKeepsHub(hub, env, ty, client, consensus, height);
    FixedExactly(sha, hub', id);
  }
}
