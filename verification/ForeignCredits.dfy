/** A concrete run in which an application under another port makes the peer's transfer application
    credit an amount that nothing in escrow stands for. */
module ForeignCredits {
  import opened Prelude
  import opened Paths
  import opened Commitments
  import opened ClientIds
  import opened Router
  import opened RouterRuns
  import opened Settleable
  import opened TwoChains
  import opened PacketSafety
  import opened Scenarios
  import opened Transfer
  import opened Escrow
  import opened EscrowRuns
  import opened Credits
  import opened TwoBridges
  import opened Backing
  import SD = SharedDestination
  import RC = RouterContract

  // ---------------------------------------------------------------- extending a run

  ghost predicate DuoReached(pl: Plan, start: Duo, steps: seq<DuoStep>, d: Duo) {
    DuoStart(pl, start) && LegalDuoRun(pl, start, steps) && d == RunDuo(pl, start, steps)
  }

  lemma ExtendDuo(pl: Plan, start: Duo, steps: seq<DuoStep>, d: Duo, s: DuoStep)
    requires DuoReached(pl, start, steps, d) && LegalStep(pl, d, s)
    ensures DuoReached(pl, start, steps + [s], NextDuo(pl, d, s))
  {
    var all := steps + [s];
    assert all[..|steps|] == steps;
    forall k | 0 <= k < |all| ensures LegalStep(pl, RunDuo(pl, start, all[..k]), all[k]) {
      if k < |steps| {
        assert all[..k] == steps[..k];
      }
    }
  }

  function ActOf(side: Side, tx: Tx): DuoStep {
    Act(side, BridgeTx(tx.env, RouterOp(tx.action)))
  }

  predicate MakesNoCalls(a: Action) {
    IsRegistration(a) || a.DoSend?
  }

  /** A router transaction without callbacks leaves the applications alone. */
  lemma QuietAct(pl: Plan, d: Duo, side: Side, tx: Tx)
    requires MakesNoCalls(tx.action)
    ensures NextDuo(pl, d, ActOf(side, tx))
         == d.With(side, Bridge(d.AppAt(side), Step(pl.At(side).sha, d.world.At(side).router, tx.env, tx.action)))
  {
    var su, b := pl.At(side), d.BridgeAt(side);
    var r := Exec(su.sha, b.router, tx.env, tx.action);
    if r.Ok? {
      NoNewCallsMade(su.sha, b.router, tx.env, tx.action);
      assert r.value.calls[|b.router.calls|..] == [];
      assert RunCalls(su, b.app, []) == Ok(b.app);
    }
  }

  lemma NoNewCallsMade(sha: Hash, st: State, env: Env, a: Action)
    requires MakesNoCalls(a) && Exec(sha, st, env, a).Ok?
    ensures Exec(sha, st, env, a).value.calls == st.calls
  {
    if a.DoSend? {
      SendSends(sha, st, env, a.client, a.timeout, a.payloads);
    } else {
      RegistrationIsQuiet(sha, st, env, a);
    }
  }

  /** The transaction may be submitted on `side` of `d`. */
  ghost predicate Submittable(pl: Plan, d: Duo, side: Side, tx: Tx) {
    && MakesNoCalls(tx.action) && LegalStep(pl, d, ActOf(side, tx))
  }

  lemma {:induction false} ExtendQuiet(pl: Plan, start: Duo, steps: seq<DuoStep>, d: Duo, side: Side, txs: seq<Tx>) returns (all: seq<DuoStep>)
    requires DuoReached(pl, start, steps, d)
    requires forall k :: 0 <= k < |txs| ==> Submittable(pl, d, side, txs[k])
    ensures DuoReached(pl, start, all, d.With(side, Bridge(d.AppAt(side), Run(pl.At(side).sha, d.world.At(side).router, txs))))
    decreases |txs|
  {
    if |txs| == 0 {
      all := steps;
    } else {
      var front, tx := txs[..|txs| - 1], txs[|txs| - 1];
      var before := ExtendQuiet(pl, start, steps, d, side, front);
      var d' := d.With(side, Bridge(d.AppAt(side), Run(pl.At(side).sha, d.world.At(side).router, front)));
      LegalStands(pl, d, side, d', tx);
      QuietAct(pl, d', side, tx);
      ExtendDuo(pl, start, before, d', ActOf(side, tx));
      all := before + [ActOf(side, tx)];
    }
  }

  /** Whether a transaction may be submitted does not depend on the chain's own state. */
  lemma LegalStands(pl: Plan, d: Duo, side: Side, d': Duo, tx: Tx)
    requires Submittable(pl, d, side, tx)
    requires d'.world.At(Other(side)) == d.world.At(Other(side))
    requires d'.world.At(side) == d.world.At(side).(router := d'.world.At(side).router)
    ensures Submittable(pl, d', side, tx)
  {
  }

  // ---------------------------------------------------------------- the scenario

  const TIMEOUT: U64 := 10

  /** The administrator of both routers, who also runs the demo application; not the transfer application. */
  function Operator(pl: Plan): Address {
    pl.left.self + 1
  }

  function BaseOf(pl: Plan, side: Side): State {
    Initial(Operator(pl)).(port := map[PORT := pl.At(side).self])
  }

  function ChainOf(pl: Plan, side: Side): Chain {
    Chain(BaseOf(pl, side), 0, [], [], {Id(0)})
  }

  const NO_MONEY := App(map[], map[], map[])

  function Beginning(pl: Plan): Duo {
    Duo(World(ChainOf(pl, Left), ChainOf(pl, Right)), NO_MONEY, NO_MONEY)
  }

  ghost function EnvOf(pl: Plan, peer: Chain): Env {
    Env(0, {Operator(pl)}, Oracle(peer), _ => Some(SUCCESS_ACK), _ => true)
  }

  function Data(codec: Codec, r: Address, denom: Bytes, amount: I128): PacketData
    requires AddressToString(codec, r).Some?
  {
    PacketData(denom, amount, [], AddressToString(codec, r).value, [])
  }

  /** From the demo port to the transfer port. */
  function Smuggled(codec: Codec, d: PacketData): Payload {
    Payload(DEMO, PORT, [], [], codec.encode(d))
  }

  function PacketOf(payload: Payload): Packet {
    Packet(1, Id(0), Id(0), TIMEOUT, [payload])
  }

  lemma PortsDiffer()
    ensures DEMO != PORT
  {
    assert |DEMO| != |PORT|;
  }

  lemma SubmittableWith(pl: Plan, d: Duo, side: Side, tx: Tx)
    requires MakesNoCalls(tx.action) && tx.env == EnvOf(pl, d.world.At(Other(side)))
    requires tx.action.DoSend? ==> side == Left
    requires d.world.At(side).time == 0 && d.world.At(Other(side)).prefix == []
    requires tx.action.DoRegisterCounterparty? ==> tx.action.prefix == []
    ensures Submittable(pl, d, side, tx)
  {
    SD.LegalWith(d.world, side, tx.env, tx.action);
  }

  // ---------------------------------------------------------------- the left chain

  function LeftState(pl: Plan, payload: Payload): State {
    var st := Connected(BaseOf(pl, Left), Operator(pl), Id(0));
    Sent1(pl.left.sha, st, PacketOf(payload))
  }

  lemma LeftTxs(pl: Plan, env: Env, payload: Payload) returns (txs: seq<Tx>)
    requires env.auth == {Operator(pl)} && env.lc.accepts && env.time == 0
    requires payload.sourcePort == DEMO && CommittablePayload(payload)
    ensures Run(pl.left.sha, BaseOf(pl, Left), txs) == LeftState(pl, payload)
    ensures Unprefixed(txs, env) && forall k :: 0 <= k < |txs| ==> MakesNoCalls(txs[k].action)
  {
    IdsAreFine(0);
    PortsDiffer();
    var st := Connected(BaseOf(pl, Left), Operator(pl), Id(0));
    var xs := Connect(pl.left.sha, BaseOf(pl, Left), env, Operator(pl), Id(0));
    SendFirst(pl.left.sha, st, env, Id(0), TIMEOUT, payload);
    SendAfter(pl.left.sha, BaseOf(pl, Left), xs, st, env, Id(0), TIMEOUT, payload);
    txs := xs + [Tx(env, DoSend(Id(0), TIMEOUT, [payload]))];
  }

  function LeftChain(pl: Plan, payload: Payload): Chain {
    ChainOf(pl, Left).(router := LeftState(pl, payload), blocks := [Block(0, LeftState(pl, payload))])
  }

  function AfterLeft(pl: Plan, payload: Payload): Duo {
    Duo(World(LeftChain(pl, payload), ChainOf(pl, Right)), NO_MONEY, NO_MONEY)
  }

  lemma LeftReached(pl: Plan, payload: Payload) returns (steps: seq<DuoStep>)
    requires payload.sourcePort == DEMO && CommittablePayload(payload)
    ensures DuoReached(pl, Beginning(pl), steps, AfterLeft(pl, payload))
  {
    var d := Beginning(pl);
    var env := EnvOf(pl, d.world.right);
    var txs := LeftTxs(pl, env, payload);
    BeginningStarts(pl);
    forall k | 0 <= k < |txs| ensures Submittable(pl, d, Left, txs[k]) {
      SubmittableWith(pl, d, Left, txs[k]);
    }
    var before := ExtendQuiet(pl, d, [], d, Left, txs);
    var d1 := d.With(Left, Bridge(NO_MONEY, LeftState(pl, payload)));
    ExtendDuo(pl, d, before, d1, Close(Left, 0));
    steps := before + [Close(Left, 0)];
  }

  lemma BeginningStarts(pl: Plan)
    ensures DuoReached(pl, Beginning(pl), [], Beginning(pl))
  {
    forall s: Side ensures Beginning(pl).world.At(s).blocks == [] && PortOpened(pl.At(s), Beginning(pl).BridgeAt(s)) {
    }
  }

  // ---------------------------------------------------------------- the right chain

  function RightReady(pl: Plan): State {
    Connected(BaseOf(pl, Right), Operator(pl), Id(0))
  }

  function AfterConnect(pl: Plan, payload: Payload): Duo {
    AfterLeft(pl, payload).With(Right, Bridge(NO_MONEY, RightReady(pl)))
  }

  lemma RightConnected(pl: Plan, payload: Payload) returns (steps: seq<DuoStep>)
    requires payload.sourcePort == DEMO && CommittablePayload(payload)
    ensures DuoReached(pl, Beginning(pl), steps, AfterConnect(pl, payload))
  {
    var before := LeftReached(pl, payload);
    var d := AfterLeft(pl, payload);
    var env := EnvOf(pl, d.world.left);
    IdsAreFine(0);
    PortsDiffer();
    var txs := Connect(pl.right.sha, BaseOf(pl, Right), env, Operator(pl), Id(0));
    forall k | 0 <= k < |txs| ensures Submittable(pl, d, Right, txs[k]) {
      SubmittableWith(pl, d, Right, txs[k]);
    }
    steps := ExtendQuiet(pl, Beginning(pl), before, d, Right, txs);
  }

  lemma Committed(pl: Plan, payload: Payload)
    ensures MemberIn(LeftChain(pl, payload), 0, CounterpartyKey([], Path(Id(0), PacketCommitment, 1)),
                     CommitPacket(pl.left.sha, PacketOf(payload)))
  {
    var path := Path(Id(0), PacketCommitment, 1);
    assert Concat([]) == [];
    assert CounterpartyKey([], path) == Key(path);
    HoldsKeyIsHolds(LeftState(pl, payload), path, CommitPacket(pl.left.sha, PacketOf(payload)));
    assert Key(path)[0..] == Key(path);
  }

  lemma RightReceives(pl: Plan, payload: Payload, env: Env)
    requires pl.left.sha == pl.right.sha && env == EnvOf(pl, LeftChain(pl, payload))
    requires payload.destPort == PORT && CommittablePayload(payload)
    ensures Recv(pl.right.sha, RightReady(pl), env, PacketOf(payload), [], 0)
         == Ok(Received1(pl.right.sha, RightReady(pl), PacketOf(payload), SUCCESS_ACK))
  {
    IdsAreFine(0);
    PortsDiffer();
    Committed(pl, payload);
    assert RC.Receivable(pl.right.sha, RightReady(pl), env, PacketOf(payload), [], 0);
    RecvOne(pl.right.sha, RightReady(pl), env, PacketOf(payload), [], 0, SUCCESS_ACK);
  }

  /** The application credits the receiver; the sender's port plays no part. */
  lemma RightCredits(su: Setup, payload: Payload, r: Address, denom: Bytes, amount: I128, call: Call)
    requires Inverts(su.codec) && AddressToString(su.codec, r).Some? && amount > 0
    requires payload.destPort == PORT && payload.value == su.codec.encode(Data(su.codec, r, denom, amount))
    requires call.OnRecv? && call.app == su.self && call.payload == payload && call.reply == SUCCESS_ACK
    ensures RunCalls(su, NO_MONEY, [call]) == Ok(NO_MONEY.(balances := map[(r, denom) := amount]))
  {
    AddressRoundTrip(su.codec, r);
    assert su.codec.decode(payload.value) == Some(Data(su.codec, r, denom, amount));
    assert OneCall(su, NO_MONEY, call) == Ok(NO_MONEY.(balances := map[(r, denom) := amount]));
    assert [call][1..] == [];
  }

  function Rich(r: Address, denom: Bytes, amount: I128): App {
    NO_MONEY.(balances := map[(r, denom) := amount])
  }

  function FinalRight(pl: Plan, payload: Payload): State
    requires payload.destPort == PORT
  {
    PortsDiffer();
    Received1(pl.right.sha, RightReady(pl), PacketOf(payload), SUCCESS_ACK)
  }

  function CallOf(pl: Plan, payload: Payload): Call {
    OnRecv(pl.right.self, Id(0), Id(0), 1, payload, SUCCESS_ACK)
  }

  lemma RightRecvExec(pl: Plan, payload: Payload, env: Env)
    requires Compatible(pl) && payload.destPort == PORT && CommittablePayload(payload)
    requires env == EnvOf(pl, LeftChain(pl, payload))
    ensures Exec(pl.right.sha, RightReady(pl), env, DoRecv(PacketOf(payload), [], 0)) == Ok(FinalRight(pl, payload))
    ensures FinalRight(pl, payload).calls == RightReady(pl).calls + [CallOf(pl, payload)]
  {
    RightReceives(pl, payload, env);
    PortsDiffer();
  }

  lemma RightExecutes(pl: Plan, payload: Payload, env: Env, r: Address, denom: Bytes, amount: I128)
    requires Compatible(pl) && AddressToString(pl.right.codec, r).Some? && amount > 0
    requires payload.destPort == PORT && payload.value == pl.right.codec.encode(Data(pl.right.codec, r, denom, amount))
    requires env == EnvOf(pl, LeftChain(pl, payload)) && CommittablePayload(payload)
    ensures ExecRouter(pl.right, Bridge(NO_MONEY, RightReady(pl)), env, DoRecv(PacketOf(payload), [], 0))
         == Ok(Bridge(Rich(r, denom, amount), FinalRight(pl, payload)))
  {
    RightRecvExec(pl, payload, env);
    RightCredits(pl.right, payload, r, denom, amount, CallOf(pl, payload));
    CallsApplied(pl.right, Bridge(NO_MONEY, RightReady(pl)), env, DoRecv(PacketOf(payload), [], 0), FinalRight(pl, payload),
                 [CallOf(pl, payload)], Rich(r, denom, amount));
  }

  lemma CallsApplied(su: Setup, b: Bridge, env: Env, a: Action, st: State, calls: seq<Call>, t: App)
    requires Exec(su.sha, b.router, env, a) == Ok(st) && st.calls == b.router.calls + calls
    requires RunCalls(su, b.app, calls) == Ok(t)
    ensures ExecRouter(su, b, env, a) == Ok(Bridge(t, st))
  {
    assert st.calls[|b.router.calls|..] == calls;
  }

  /** A payload sent by the demo application, addressed to the transfer port, is credited in full on the right
      chain, over clients that are honest on both ends, while the left chain's escrow holds nothing: not
      every credit is backed. */
  lemma ForeignPayloadCredited(pl: Plan, r: Address, denom: Bytes, amount: I128) returns (steps: seq<DuoStep>, end: Duo, q: Packet)
    requires Compatible(pl) && AddressToString(pl.left.codec, r).Some? && amount > 0
    ensures DuoReached(pl, Beginning(pl), steps, end)
    ensures RecvPacket(q) in end.world.right.router.events && Delivered(end.world.left, end.world.right, q)
    ensures |q.payloads| == 1 && q.payloads[0].destPort == PORT && q.payloads[0].sourcePort != PORT
    ensures Balance(end.right, r, denom) == amount
    ensures forall d :: Balance(end.left, pl.left.self, d) == 0
    ensures TotalCredit(pl.left, LinkOf(end.world.left, end.world.right), end.world.right.router.events, Foreign, denom) == amount
  {
    var payload := Smuggled(pl.left.codec, Data(pl.left.codec, r, denom, amount));
    PortsDiffer();
    var before := RightConnected(pl, payload);
    var d := AfterConnect(pl, payload);
    var env := EnvOf(pl, d.world.left);
    q := PacketOf(payload);
    var s := Act(Right, BridgeTx(env, RouterOp(DoRecv(q, [], 0))));
    RightExecutes(pl, payload, env, r, denom, amount);
    RecvIsLegal(pl, d, env, q, payload, r, denom, amount);
    ExtendDuo(pl, Beginning(pl), before, d, s);
    steps, end := before + [s], NextDuo(pl, d, s);
    assert end == d.With(Right, Bridge(Rich(r, denom, amount), FinalRight(pl, payload)));
    FinalCredit(pl, payload, r, denom, amount);
  }

  lemma RecvIsLegal(pl: Plan, d: Duo, env: Env, q: Packet, payload: Payload, r: Address, denom: Bytes, amount: I128)
    requires Compatible(pl) && AddressToString(pl.left.codec, r).Some? && amount > 0
    requires payload == Smuggled(pl.left.codec, Data(pl.left.codec, r, denom, amount)) && q == PacketOf(payload)
    requires d == AfterConnect(pl, payload) && env == EnvOf(pl, d.world.left)
    ensures LegalStep(pl, d, Act(Right, BridgeTx(env, RouterOp(DoRecv(q, [], 0)))))
  {
    SD.LegalWith(d.world, Right, env, DoRecv(q, [], 0));
    assert InboundAmount(pl.right, payload) == amount;
  }

  lemma FinalCredit(pl: Plan, payload: Payload, r: Address, denom: Bytes, amount: I128)
    requires Compatible(pl) && AddressToString(pl.left.codec, r).Some? && amount > 0
    requires payload == Smuggled(pl.left.codec, Data(pl.left.codec, r, denom, amount))
    ensures var events := FinalRight(pl, payload).events;
            && RecvPacket(PacketOf(payload)) in events
            && TotalCredit(pl.left, Link({Id(0)}, {Id(0)}), events, Foreign, denom) == amount
  {
    PortsDiffer();
    var q, link := PacketOf(payload), Link({Id(0)}, {Id(0)});
    var e, f := RecvPacket(q), WriteAck(Id(0), 1, [SUCCESS_ACK]);
    assert FinalRight(pl, payload).events == [e, f] == [] + [e, f];
    ReceptionTotals(pl.left, link, [], q, [SUCCESS_ACK], Foreign, denom);
    assert q.payloads[1..] == [];
    assert pl.left.codec.decode(payload.value) == Some(Data(pl.left.codec, r, denom, amount));
    assert PayloadsCredit(pl.left, q.payloads, Foreign, denom) == amount;
  }
}
