/** Building concrete runs: a router with a port and clients, step by step. */
module Scenarios {
  import opened Prelude
  import opened Paths
  import opened Commitments
  import opened ClientIds
  import opened Router
  import opened RouterRuns
  import opened Settleable
  import RC = RouterContract

  /** "test" */
  const TYPE: Bytes := [116, 101, 115, 116]
  /** "demo" */
  const DEMO: Bytes := [100, 101, 109, 111]

  const CONTRACT: Address := 9

  function Id(n: U32): Bytes {
    ClientId(TYPE, n)
  }

  lemma IdsAreFine(n: U32)
    requires n < 2
    ensures Id(n) == TYPE + [DASH, ZERO + n]
    ensures Minted(TYPE, n) == Some(Id(n)) && Validate(Id(n)) == None && Fits(Id(n)) && |Id(n)| == 6
  {
    assert Digits(n) == [ZERO + n];
    assert Id(n)[0] == 116;
    assert CHANNEL_PREFIX[0] == 99 && CLIENT_PREFIX[0] == 99;
  }

  lemma NamesAreFine()
    ensures Validate(TYPE) == None && Validate(DEMO) == None
  {
    assert TYPE[0] == 116 && DEMO[0] == 100;
    assert CHANNEL_PREFIX[0] == 99 && CLIENT_PREFIX[0] == 99;
  }

  lemma RunThen(sha: Hash, st: State, txs: seq<Tx>, tx: Tx)
    ensures Run(sha, st, txs + [tx]) == Step(sha, Run(sha, st, txs), tx.env, tx.action)
  {
    assert (txs + [tx])[..|txs|] == txs;
  }

  lemma RunThenOk(sha: Hash, st0: State, txs: seq<Tx>, st: State, tx: Tx, st': State)
    requires Run(sha, st0, txs) == st && Exec(sha, st, tx.env, tx.action) == Ok(st')
    ensures Run(sha, st0, txs + [tx]) == st'
  {
    RunThen(sha, st0, txs, tx);
  }

  /** All in one environment, registering counterparties without a store prefix. */
  ghost predicate Unprefixed(txs: seq<Tx>, env: Env) {
    forall k :: 0 <= k < |txs| ==>
      txs[k].env == env && (txs[k].action.DoRegisterCounterparty? ==> txs[k].action.prefix == [])
  }

  predicate AllRegister(txs: seq<Tx>) {
    forall k :: 0 <= k < |txs| ==> IsRegistration(txs[k].action)
  }

  // ---------------------------------------------------------------- a port and a client type

  predicate Bare(st: State) {
    st.nextClientId == map[] && st.typeAddr == map[] && st.clientType == map[] && st.counterparty == map[]
    && DEMO !in st.port
  }

  function Based(st: State, app: Address): State {
    st.(port := st.port[DEMO := app], typeAddr := map[TYPE := CONTRACT])
  }

  lemma Base(sha: Hash, st: State, env: Env, app: Address) returns (txs: seq<Tx>)
    requires Bare(st) && st.admin in env.auth
    ensures |txs| == 2 && Unprefixed(txs, env) && AllRegister(txs)
    ensures Run(sha, st, txs) == Based(st, app)
  {
    NamesAreFine();
    var a, b := Tx(env, DoRegisterPort(DEMO, app)), Tx(env, DoRegisterClientType(TYPE, CONTRACT));
    txs := [a] + [b];
    assert [a] == [] + [a];
    RunThen(sha, st, [], a);
    RunThen(sha, st, [a], b);
  }

  // ---------------------------------------------------------------- one more client

  function WithClient(st: State, n: U32, peer: Bytes): State
    requires n < U32_MAX
  {
    st.(nextClientId := st.nextClientId[TYPE := n + 1],
        clientType := st.clientType[Id(n) := TYPE],
        lcAddr := st.lcAddr[Id(n) := CONTRACT],
        counterparty := st.counterparty[Id(n) := Counterparty(peer, [])])
  }

  lemma AddClient(sha: Hash, st: State, env: Env, n: U32, peer: Bytes) returns (txs: seq<Tx>)
    requires n < 2 && NextClient(st, TYPE) == n && TYPE in st.typeAddr && st.typeAddr[TYPE] == CONTRACT
    requires Id(n) !in st.counterparty && Validate(peer) == None && env.lc.accepts
    ensures |txs| == 2 && Unprefixed(txs, env) && AllRegister(txs)
    ensures Run(sha, st, txs) == WithClient(st, n, peer)
  {
    IdsAreFine(n);
    var a, b := Tx(env, DoCreateClient(TYPE)), Tx(env, DoRegisterCounterparty(Id(n), peer, []));
    txs := [a] + [b];
    assert [a] == [] + [a];
    RunThen(sha, st, [], a);
    RunThen(sha, st, [a], b);
  }

  /** A port and one client that names `peer`. */
  function Connected(st: State, app: Address, peer: Bytes): State {
    WithClient(Based(st, app), 0, peer)
  }

  lemma Connect(sha: Hash, st: State, env: Env, app: Address, peer: Bytes) returns (txs: seq<Tx>)
    requires Bare(st) && st.admin in env.auth && env.lc.accepts && Validate(peer) == None
    ensures |txs| == 4 && Unprefixed(txs, env) && AllRegister(txs)
    ensures Run(sha, st, txs) == Connected(st, app, peer)
  {
    var xs := Base(sha, st, env, app);
    var ys := AddClient(sha, Based(st, app), env, 0, peer);
    txs := xs + ys;
    RunSplit(sha, st, xs, ys);
  }

  // ---------------------------------------------------------------- sending

  function Sent1(sha: Hash, st: State, p: Packet): State {
    st.(nextSeqSend := st.nextSeqSend[p.sourceClient := 1],
        commitments := st.commitments[(p.sourceClient, 1) := CommitPacket(sha, p)],
        events := st.events + [SendPacket(p)])
  }

  /** The first packet of a client: one payload from the demo port. */
  function First(st: State, client: Bytes, timeout: U64, payload: Payload): Packet
    requires client in st.counterparty
  {
    Packet(1, client, st.counterparty[client].clientId, timeout, [payload])
  }

  lemma SendFirst(sha: Hash, st: State, env: Env, client: Bytes, timeout: U64, payload: Payload)
    requires client in st.counterparty && NextSeq(st, client) == 0 && Fits(client) && timeout > env.time
    requires payload.sourcePort in st.port && st.port[payload.sourcePort] in env.auth && CommittablePayload(payload)
    requires |st.counterparty[client].clientId| <= STRING_BUFFER
    ensures Send(sha, st, env, client, timeout, [payload]) == Ok(Sent1(sha, st, First(st, client, timeout, payload)))
  {
    var payloads := [payload];
    assert AuthError(st.port, env, payloads) == None;
    RC.SendAfterChecks(sha, st, env, client, timeout, payloads);
    assert Committable(First(st, client, timeout, payload));
  }

  lemma SentIsLive(sha: Hash, st: State, p: Packet)
    requires p.sequence == 1
    ensures Live(Sent1(sha, st, p), p)
  {
    Appended(st.events, SendPacket(p), Sent, (p.sourceClient, 1));
  }

  lemma SendAfter(sha: Hash, st0: State, setup: seq<Tx>, st: State, env: Env, client: Bytes, timeout: U64, payload: Payload)
    requires Run(sha, st0, setup) == st && client in st.counterparty
    requires Send(sha, st, env, client, timeout, [payload]) == Ok(Sent1(sha, st, First(st, client, timeout, payload)))
    ensures Run(sha, st0, setup + [Tx(env, DoSend(client, timeout, [payload]))]) == Sent1(sha, st, First(st, client, timeout, payload))
  {
    RunThen(sha, st0, setup, Tx(env, DoSend(client, timeout, [payload])));
  }

  /** Five transactions from deployment to a live packet for any valid destination id. */
  lemma SendFromDeployment(sha: Hash, admin: Address, env: Env, peer: Bytes, timeout: U64) returns (txs: seq<Tx>, p: Packet)
    requires env.auth == {admin} && env.lc.accepts && timeout > env.time && Validate(peer) == None
    ensures |txs| == 5 && p == Packet(1, Id(0), peer, timeout, [Payload(DEMO, DEMO, [], [], [])])
    ensures Live(Run(sha, Initial(admin), txs), p)
  {
    var st := Connected(Initial(admin), admin, peer);
    var setup := Connect(sha, Initial(admin), env, admin, peer);
    IdsAreFine(0);
    var payload := Payload(DEMO, DEMO, [], [], []);
    var tx := Tx(env, DoSend(Id(0), timeout, [payload]));
    SendFirst(sha, st, env, Id(0), timeout, payload);
    p := First(st, Id(0), timeout, payload);
    txs := setup + [tx];
    SendAfter(sha, Initial(admin), setup, st, env, Id(0), timeout, payload);
    SentIsLive(sha, st, p);
  }

  /** Packets exist that can never be settled: for every timeout past the clock, the largest one
      included, five transactions send a packet to a destination id of 120 bytes. */
  lemma UnsettleablePacketSent(sha: Hash, admin: Address, timeout: U64, more: seq<Tx>) returns (txs: seq<Tx>, p: Packet)
    requires timeout > 0
    ensures |txs| == 5 && p.timeout == timeout && |p.destClient| == 120
    ensures Live(Run(sha, Initial(admin), txs + more), p)
    ensures Count(Run(sha, Initial(admin), txs + more).events, Settled, (p.sourceClient, p.sequence)) == 0
  {
    txs, p := SendFromDeployment(sha, admin, BestCase().(auth := {admin}), LongId(), timeout);
    StuckForGood(sha, admin, txs, more, p);
  }

  // ---------------------------------------------------------------- receiving and acknowledging

  function Received1(sha: Hash, st: State, p: Packet, reply: Bytes): State
    requires |p.payloads| == 1 && p.payloads[0].destPort in st.port
  {
    var key := (p.destClient, p.sequence);
    var payload := p.payloads[0];
    st.(receipts := st.receipts + {key},
        acks := st.acks[key := CommitAck(sha, [reply])],
        calls := st.calls + [OnRecv(st.port[payload.destPort], p.sourceClient, p.destClient, p.sequence, payload, reply)],
        events := st.events + [RecvPacket(p), WriteAck(p.destClient, p.sequence, [reply])])
  }

  lemma RecvOne(sha: Hash, st: State, env: Env, p: Packet, proof: Bytes, height: U64, reply: Bytes)
    requires RC.Receivable(sha, st, env, p, proof, height)
    requires |p.payloads| == 1 && p.payloads[0].destPort in st.port && env.reply(0) == Some(reply)
    ensures Recv(sha, st, env, p, proof, height) == Ok(Received1(sha, st, p, reply))
  {
    RC.RecvAfterChecks(sha, st, env, p, proof, height);
    var call := OnRecv(st.port[p.payloads[0].destPort], p.sourceClient, p.destClient, p.sequence, p.payloads[0], reply);
    assert RecvCalls(st.port, env, p, 0) == Ok([]);
    var made := RecvCalls(st.port, env, p, 1);
    assert made.Ok?;
    assert made.value == [call];
    assert Replies([call]) == [reply];
  }

  lemma AckOne(sha: Hash, st: State, env: Env, p: Packet, acks: seq<Bytes>, proof: Bytes, height: U64)
    requires SettleError(sha, st, p) == None && Fits(p.destClient)
    requires AskMember(st, env, p.sourceClient, height, proof, PathOf(st, p, AckCommitment), CommitAck(sha, acks)) == None
    requires |p.payloads| == 1 && p.payloads[0].sourcePort in st.port && env.settles(0)
    ensures Acknowledge(sha, st, env, p, acks, proof, height).Ok?
    ensures AckPacket(p, acks) in Acknowledge(sha, st, env, p, acks, proof, height).value.events
  {
    assert AckCalls(sha, st.port, env, p, acks, 0) == Ok([]);
    assert AckCalls(sha, st.port, env, p, acks, 1).Ok?;
  }
}
