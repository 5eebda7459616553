/** Two source clients that name one destination client: a concrete run in which a packet is
    acknowledged with the reply to another one. */
module SharedDestination {
  import opened Prelude
  import opened Paths
  import opened Commitments
  import opened ClientIds
  import opened Router
  import opened RouterRuns
  import opened Settleable
  import opened TwoChains
  import opened PacketSafety
  import opened Scenarios
  import RC = RouterContract

  // ---------------------------------------------------------------- extending a run

  lemma Extend(sha: Hash, start: World, steps: seq<WorldStep>, w: World, s: WorldStep)
    requires Reached(sha, start, steps, w) && Legal(w, s)
    ensures Reached(sha, start, steps + [s], Next(sha, w, s))
  {
    var all := steps + [s];
    assert all[..|steps|] == steps;
    forall k | 0 <= k < |all| ensures Legal(RunWorld(sha, start, all[..k]), all[k]) {
      if k < |steps| {
        assert all[..k] == steps[..k];
      }
    }
  }

  /** Transactions on one side. */
  lemma {:induction false} ExtendSide(sha: Hash, start: World, steps: seq<WorldStep>, w: World, side: Side, txs: seq<Tx>) returns (all: seq<WorldStep>)
    requires Reached(sha, start, steps, w)
    requires forall k :: 0 <= k < |txs| ==> Legal(w, Transact(side, txs[k]))
    ensures Reached(sha, start, all, w.With(side, w.At(side).(router := Run(sha, w.At(side).router, txs))))
    decreases |txs|
  {
    if |txs| == 0 {
      all := steps;
    } else {
      var front, tx := txs[..|txs| - 1], txs[|txs| - 1];
      var before := ExtendSide(sha, start, steps, w, side, front);
      var w' := w.With(side, w.At(side).(router := Run(sha, w.At(side).router, front)));
      Extend(sha, start, before, w', Transact(side, tx));
      all := before + [Transact(side, tx)];
    }
  }

  // ---------------------------------------------------------------- the scenario

  const ADMIN: Address := 1
  const APP: Address := 7
  const REPLY: Bytes := [9]
  const TIMEOUT: U64 := 10

  function PayloadA(): Payload {
    Payload(DEMO, DEMO, [], [], [1])
  }

  function PayloadB(): Payload {
    Payload(DEMO, DEMO, [], [], [2])
  }

  function Fresh(honest: set<Bytes>): Chain {
    Chain(Initial(ADMIN), 0, [], [], honest)
  }

  /** Both clients of the left chain name client 0 of the right chain, which names client 0. */
  function Beginning(): World {
    World(Fresh({Id(0), Id(1)}), Fresh({Id(0)}))
  }

  ghost function EnvAgainst(peer: Chain): Env {
    Env(0, {ADMIN, APP}, Oracle(peer), _ => Some(REPLY), _ => true)
  }

  /** A transaction at the chain's time whose light clients answer from the peer's history is legal. */
  lemma LegalWith(w: World, side: Side, env: Env, a: Action)
    requires env.time == w.At(side).time && env.lc == Oracle(w.At(Other(side))) && w.At(Other(side)).prefix == []
    requires a.DoRegisterCounterparty? ==> a.prefix == []
    ensures Legal(w, Transact(side, Tx(env, a)))
  {
    forall c | c in w.At(side).honest ensures Sound(env.lc, w.At(Other(side)), c) {
      OracleIsSound(w.At(Other(side)), c);
    }
    assert Concat([]) == [];
  }

  function TwoClients(): State {
    WithClient(Connected(Initial(ADMIN), APP, Id(0)), 1, Id(0))
  }

  function PacketA(): Packet {
    Packet(1, Id(0), Id(0), TIMEOUT, [PayloadA()])
  }

  function PacketB(): Packet {
    Packet(1, Id(1), Id(0), TIMEOUT, [PayloadB()])
  }

  function BothSent(sha: Hash): State {
    Sent1(sha, Sent1(sha, TwoClients(), PacketA()), PacketB())
  }

  lemma IdsDiffer()
    ensures Id(0) != Id(1)
  {
    IdsAreFine(0);
    IdsAreFine(1);
    assert Id(0)[5] != Id(1)[5];
  }

  lemma SetUpLeft(sha: Hash, env: Env) returns (txs: seq<Tx>)
    requires env.auth == {ADMIN, APP} && env.lc.accepts && env.time == 0
    ensures Run(sha, Initial(ADMIN), txs) == TwoClients()
    ensures Unprefixed(txs, env)
  {
    IdsAreFine(0);
    IdsDiffer();
    var xs := Connect(sha, Initial(ADMIN), env, APP, Id(0));
    var ys := AddClient(sha, Connected(Initial(ADMIN), APP, Id(0)), env, 1, Id(0));
    txs := xs + ys;
    RunSplit(sha, Initial(ADMIN), xs, ys);
  }

  lemma SendBoth(sha: Hash, env: Env) returns (txs: seq<Tx>)
    requires env.auth == {ADMIN, APP} && env.lc.accepts && env.time == 0
    ensures Run(sha, TwoClients(), txs) == BothSent(sha)
    ensures Unprefixed(txs, env)
  {
    IdsAreFine(0);
    IdsAreFine(1);
    IdsDiffer();
    var st := TwoClients();
    var a, b := Tx(env, DoSend(Id(0), TIMEOUT, [PayloadA()])), Tx(env, DoSend(Id(1), TIMEOUT, [PayloadB()]));
    SendFirst(sha, st, env, Id(0), TIMEOUT, PayloadA());
    SendAfter(sha, st, [], st, env, Id(0), TIMEOUT, PayloadA());
    assert [] + [a] == [a];
    var mid := Sent1(sha, st, PacketA());
    SendFirst(sha, mid, env, Id(1), TIMEOUT, PayloadB());
    SendAfter(sha, st, [a], mid, env, Id(1), TIMEOUT, PayloadB());
    txs := [a] + [b];
  }

  /** The left chain after its first block. */
  function LeftChain(sha: Hash): Chain {
    Fresh({Id(0), Id(1)}).(router := BothSent(sha), blocks := [Block(0, BothSent(sha))])
  }

  /** One block of transactions on one side. */
  lemma RunAndClose(sha: Hash, start: World, steps: seq<WorldStep>, w: World, side: Side, txs: seq<Tx>) returns (all: seq<WorldStep>)
    requires Reached(sha, start, steps, w) && Unprefixed(txs, EnvAgainst(w.At(Other(side))))
    requires w.At(side).time == 0 && w.At(Other(side)).prefix == []
    ensures var st := Run(sha, w.At(side).router, txs);
            Reached(sha, start, all, w.With(side, w.At(side).(router := st, blocks := w.At(side).blocks + [Block(0, st)])))
  {
    forall k | 0 <= k < |txs| ensures Legal(w, Transact(side, txs[k])) {
      LegalWith(w, side, txs[k].env, txs[k].action);
    }
    var after := ExtendSide(sha, start, steps, w, side, txs);
    var w1 := w.With(side, w.At(side).(router := Run(sha, w.At(side).router, txs)));
    Extend(sha, start, after, w1, CloseBlock(side, 0));
    all := after + [CloseBlock(side, 0)];
  }

  lemma LeftReached(sha: Hash) returns (steps: seq<WorldStep>)
    ensures Reached(sha, Beginning(), steps, World(LeftChain(sha), Fresh({Id(0)})))
  {
    var w := Beginning();
    var env := EnvAgainst(w.right);
    var xs := SetUpLeft(sha, env);
    var ys := SendBoth(sha, env);
    RunSplit(sha, Initial(ADMIN), xs, ys);
    assert Reached(sha, w, [], w);
    steps := RunAndClose(sha, w, [], w, Left, xs + ys);
  }

  // ---------------------------------------------------------------- the right chain receives packet A

  function OneClient(): State {
    Connected(Initial(ADMIN), APP, Id(0))
  }

  function AReceived(sha: Hash): State {
    Received1(sha, OneClient(), PacketA(), REPLY)
  }

  function RightChain(sha: Hash): Chain {
    Fresh({Id(0)}).(router := AReceived(sha), blocks := [Block(0, AReceived(sha))])
  }

  lemma AIsCommitted(sha: Hash)
    ensures MemberIn(LeftChain(sha), 0, CounterpartyKey([], Path(Id(0), PacketCommitment, 1)), CommitPacket(sha, PacketA()))
  {
    IdsDiffer();
    var path := Path(Id(0), PacketCommitment, 1);
    assert Concat([]) == [];
    assert CounterpartyKey([], path) == Key(path);
    assert Holds(BothSent(sha), path, CommitPacket(sha, PacketA()));
    HoldsKeyIsHolds(BothSent(sha), path, CommitPacket(sha, PacketA()));
    assert Key(path)[0..] == Key(path);
  }

  lemma ReceiveA(sha: Hash, env: Env)
    requires env == EnvAgainst(LeftChain(sha))
    ensures Recv(sha, OneClient(), env, PacketA(), [], 0) == Ok(AReceived(sha))
  {
    IdsAreFine(0);
    AIsCommitted(sha);
    assert RC.Receivable(sha, OneClient(), env, PacketA(), [], 0);
    RecvOne(sha, OneClient(), env, PacketA(), [], 0, REPLY);
  }

  lemma ConnectThen(sha: Hash, env: Env, a: Action) returns (txs: seq<Tx>)
    requires env.auth == {ADMIN, APP} && env.lc.accepts && !a.DoRegisterCounterparty?
    ensures Run(sha, Initial(ADMIN), txs) == Step(sha, OneClient(), env, a)
    ensures Unprefixed(txs, env)
  {
    IdsAreFine(0);
    var xs := Connect(sha, Initial(ADMIN), env, APP, Id(0));
    RunThen(sha, Initial(ADMIN), xs, Tx(env, a));
    txs := xs + [Tx(env, a)];
  }

  lemma SetUpRight(sha: Hash, env: Env) returns (txs: seq<Tx>)
    requires env == EnvAgainst(LeftChain(sha))
    ensures Run(sha, Initial(ADMIN), txs) == AReceived(sha)
    ensures Unprefixed(txs, env)
  {
    ReceiveA(sha, env);
    txs := ConnectThen(sha, env, DoRecv(PacketA(), [], 0));
  }

  lemma RightReached(sha: Hash) returns (steps: seq<WorldStep>)
    ensures Reached(sha, Beginning(), steps, World(LeftChain(sha), RightChain(sha)))
  {
    var before := LeftReached(sha);
    var w := World(LeftChain(sha), Fresh({Id(0)}));
    var txs := SetUpRight(sha, EnvAgainst(w.left));
    steps := RunAndClose(sha, Beginning(), before, w, Right, txs);
  }

  // ---------------------------------------------------------------- packet B is acknowledged with the reply to A

  lemma AIsAcked(sha: Hash)
    ensures MemberIn(RightChain(sha), 0, CounterpartyKey([], Path(Id(0), AckCommitment, 1)), CommitAck(sha, [REPLY]))
  {
    var path := Path(Id(0), AckCommitment, 1);
    assert Concat([]) == [];
    assert CounterpartyKey([], path) == Key(path);
    HoldsKeyIsHolds(AReceived(sha), path, CommitAck(sha, [REPLY]));
    assert Key(path)[0..] == Key(path);
  }

  lemma AcknowledgeB(sha: Hash, env: Env)
    requires env == EnvAgainst(RightChain(sha))
    ensures var r := Acknowledge(sha, BothSent(sha), env, PacketB(), [REPLY], [], 0);
            r.Ok? && AckPacket(PacketB(), [REPLY]) in r.value.events
  {
    IdsAreFine(0);
    IdsAreFine(1);
    IdsDiffer();
    AIsAcked(sha);
    assert SettleError(sha, BothSent(sha), PacketB()) == None;
    AckOne(sha, BothSent(sha), env, PacketB(), [REPLY], [], 0);
  }

  lemma ExtendAck(sha: Hash, start: World, steps: seq<WorldStep>, w: World, env: Env, p: Packet, acks: seq<Bytes>) returns (all: seq<WorldStep>, w': World)
    requires Reached(sha, start, steps, w) && Legal(w, Transact(Left, Tx(env, DoAcknowledge(p, acks, [], 0))))
    requires var r := Acknowledge(sha, w.left.router, env, p, acks, [], 0); r.Ok? && AckPacket(p, acks) in r.value.events
    ensures Reached(sha, start, all, w') && w'.right == w.right && w'.left.honest == w.left.honest
    ensures AckPacket(p, acks) in w'.left.router.events
  {
    var s := Transact(Left, Tx(env, DoAcknowledge(p, acks, [], 0)));
    Extend(sha, start, steps, w, s);
    all, w' := steps + [s], Next(sha, w, s);
  }

  /** Two source clients may both register one destination client, which names only the first. Here packet 1
      of the second is acknowledged, through honest clients, with the reply of the destination's
      application to packet 1 of the first, and the destination never received it. */
  lemma AcknowledgedWithAnothersReply(sha: Hash) returns (steps: seq<WorldStep>, w: World)
    ensures Reached(sha, Beginning(), steps, w)
    ensures Id(1) in w.left.honest && Id(0) in w.right.honest
    ensures AckPacket(PacketB(), [REPLY]) in w.left.router.events
    ensures Names(w.right, Id(0), Id(0)) && !Names(w.right, Id(0), Id(1))
    ensures w.right.router.events == [RecvPacket(PacketA()), WriteAck(Id(0), 1, [REPLY])]
    ensures PacketA().payloads != PacketB().payloads
  {
    var before := RightReached(sha);
    var mid := World(LeftChain(sha), RightChain(sha));
    IdsDiffer();
    AcknowledgeB(sha, EnvAgainst(mid.right));
    LegalWith(mid, Left, EnvAgainst(mid.right), DoAcknowledge(PacketB(), [REPLY], [], 0));
    steps, w := ExtendAck(sha, Beginning(), before, mid, EnvAgainst(mid.right), PacketB(), [REPLY]);
    RightChainFacts(sha);
  }

  lemma RightChainFacts(sha: Hash)
    ensures Names(RightChain(sha), Id(0), Id(0)) && !Names(RightChain(sha), Id(0), Id(1))
    ensures RightChain(sha).router.events == [RecvPacket(PacketA()), WriteAck(Id(0), 1, [REPLY])]
    ensures PacketA().payloads != PacketB().payloads
  {
    IdsDiffer();
    assert PayloadA().value[0] != PayloadB().value[0];
    assert PacketA().payloads[0] != PacketB().payloads[0];
  }
}
