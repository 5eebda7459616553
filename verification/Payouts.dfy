/** Who pays and who is paid: a transfer order debits its sender, and its packet pays its receiver. */
module Payouts {
  import opened Prelude
  import opened Commitments
  import opened Router
  import opened RouterRuns
  import opened Settleable
  import opened Receiving
  import opened TwoChains
  import opened PacketSafety
  import opened Transfer
  import opened Escrow
  import opened EscrowRuns
  import opened Credits
  import opened TwoBridges
  import opened Backing
  import opened Orders

  // ---------------------------------------------------------------- administration

  lemma MintedExactly(t: App, payee: Address, denom: Bytes, amount: I128)
    ensures var r := Mint(t, payee, denom, amount);
            && (r.Ok? <==> amount > 0 && InI128(Balance(t, payee, denom) + amount))
            && (r.Ok? ==> Paid(t, r.value, payee, denom, amount))
  {
  }

  lemma CapSetExactly(t: App, admin: Address, auth: set<Address>, denom: Bytes, cap: I128)
    ensures var r := SetRateLimit(t, admin, auth, denom, cap);
            && (r.Ok? <==> admin in auth && cap >= 0)
            && (r.Ok? ==> r.value.balances == t.balances && r.value.usage == t.usage && r.value.caps == t.caps[denom := cap])
  {
  }

  // ---------------------------------------------------------------- placing an order

  /** The application's part of an order succeeds exactly when its sender authorised it, the amount is positive
      and within what is left of the day's cap, the sender has it and escrow can take it. */
  ghost predicate CanEscrow(t: App, self: Address, env: Env, o: Order) {
    && o.sender in env.auth && o.amount > 0
    && (o.denom in t.caps ==> InI128(Usage(t, o.denom, Day(env.time)) + o.amount)
                              && Usage(t, o.denom, Day(env.time)) + o.amount <= t.caps[o.denom])
    && Balance(t, o.sender, o.denom) >= o.amount
    && (o.sender != self ==> InI128(Balance(t, self, o.denom) + o.amount))
  }

  lemma EscrowedExactly(t: App, self: Address, env: Env, o: Order)
    ensures var r := Escrowed(t, self, env, o);
            && (r.Ok? <==> CanEscrow(t, self, env, o))
            && (r.Ok? ==> Moved(t, r.value, o.sender, self, o.denom, o.amount))
  {
    if o.sender in env.auth && o.amount > 0 && EnforceLimit(t, env.time, o.denom, o.amount).Ok? {
      var t' := EnforceLimit(t, env.time, o.denom, o.amount).value;
      assert t'.balances == t.balances;
      MoveExactly(t', o.sender, self, o.denom, o.amount);
      SameBalances(t, t');
    }
  }

  lemma SameBalances(t: App, t': App)
    requires t.balances == t'.balances
    ensures forall who, d :: Balance(t, who, d) == Balance(t', who, d)
  {
  }

  /** `amount` went from `payer` to `payee`, and no other balance changed. */
  ghost predicate Moved(t: App, t': App, payer: Address, payee: Address, denom: Bytes, amount: int) {
    forall who, d ::
      Balance(t', who, d) == Balance(t, who, d)
        - (if who == payer && d == denom then amount else 0) + (if who == payee && d == denom then amount else 0)
  }

  /** The payload of an order says what the order says, in the application's format. */
  lemma PayloadSaysOrder(codec: Codec, o: Order)
    requires Inverts(codec) && o.amount > 0 && PayloadFor(codec, o).Some?
    ensures var p := PayloadFor(codec, o).value;
            && p.sourcePort == PORT && p.destPort == PORT && p.version == VERSION && p.encoding == ENCODING
            && codec.decode(p.value).Some?
            && var d := codec.decode(p.value).value;
               && d.denom == o.denom && d.amount == o.amount && d.receiver == o.receiver && d.memo == o.memo
               && StringToAddress(codec, d.sender) == Some(o.sender)
  {
    AddressRoundTrip(codec, o.sender);
  }

  /** Everything an order depends on. */
  ghost predicate CanPlace(su: Setup, b: Bridge, env: Env, o: Order) {
    && CanEscrow(b.app, su.self, env, o)
    && |su.codec.xdr(o.sender)| <= 256 && |o.denom| <= 512 && |o.receiver| <= 512 && |o.memo| <= 512
    && PORT in b.router.port && b.router.port[PORT] == su.self
    && o.client in b.router.counterparty && env.time < o.timeout
    && NextSeq(b.router, o.client) < U64_MAX && |o.client| <= 119 && |b.router.counterparty[o.client].clientId| <= 256
  }

  /** An order is placed exactly when the application can escrow it and the router can send its packet; then
      sender and escrow change by the amount, and the router sends its payload to the counterparty of its client. */
  lemma PlacedExactly(su: Setup, b: Bridge, env: Env, o: Order)
    ensures var r := ExecTransfer(su, b, env, o);
            && (r.Ok? <==> CanPlace(su, b, env, o))
            && (r.Ok? ==>
                  && Moved(b.app, r.value.app, o.sender, su.self, o.denom, o.amount)
                  && PayloadFor(su.codec, o).Some?
                  && Sending(su.sha, b.router, Packet(NextSeq(b.router, o.client) + 1, o.client,
                               b.router.counterparty[o.client].clientId, o.timeout, [PayloadFor(su.codec, o).value]), r.value.router))
  {
    EscrowedExactly(b.app, su.self, env, o);
    if PayloadFor(su.codec, o).Some? {
      var payload := PayloadFor(su.codec, o).value;
      SentExactly(su.sha, b.router, env.(auth := {su.self}), o.client, o.timeout, [payload]);
      CanSendOne(su, b.router, env, o, payload);
    }
  }

  lemma CanSendOne(su: Setup, st: State, env: Env, o: Order, payload: Payload)
    requires PayloadFor(su.codec, o) == Some(payload)
    ensures CanSend(st, env.(auth := {su.self}), o.client, o.timeout, [payload])
       <==> && o.client in st.counterparty && env.time < o.timeout && PORT in st.port && st.port[PORT] == su.self
            && NextSeq(st, o.client) < U64_MAX && |o.client| <= 119 && |st.counterparty[o.client].clientId| <= 256
  {
    assert [payload][0] == payload;
  }

  // ---------------------------------------------------------------- paying it out

  /** The application takes the payload of an order exactly when its receiver is an address and the receiver's
      balance does not overflow; then that balance rises by the amount, and nothing else changes. */
  lemma OrderPays(codec: Codec, t: App, o: Order)
    requires Inverts(codec) && o.amount > 0 && PayloadFor(codec, o).Some?
    ensures var r := OnRecvPacket(codec, t, PayloadFor(codec, o).value);
            var payee := StringToAddress(codec, o.receiver);
            && (r.Ok? <==> payee.Some? && InI128(Balance(t, payee.value, o.denom) + o.amount))
            && (r.Ok? ==> Paid(t, r.value, payee.value, o.denom, o.amount))
  {
    PayloadSaysOrder(codec, o);
  }

  /** The payee's balance rose by `amount`, and no other balance, cap or usage changed. */
  ghost predicate Paid(t: App, t': App, payee: Address, denom: Bytes, amount: int) {
    && t'.caps == t.caps && t'.usage == t.usage
    && forall who, d :: Balance(t', who, d) == Balance(t, who, d) + (if who == payee && d == denom then amount else 0)
  }

  /** A receive of an order's packet that the router accepts goes through exactly when the application answers with
      success, the receiver is an address and its balance does not overflow; then the receiver is paid. */
  lemma ReceivedOrderPays(su: Setup, b: Bridge, env: Env, p: Packet, proof: Bytes, height: U64, o: Order)
    requires Inverts(su.codec) && o.amount > 0 && PayloadFor(su.codec, o).Some? && p.payloads == [PayloadFor(su.codec, o).value]
    requires PORT in b.router.port && b.router.port[PORT] == su.self
    requires Recv(su.sha, b.router, env, p, proof, height).Ok?
    ensures var r := ExecRouter(su, b, env, DoRecv(p, proof, height));
            var payee := StringToAddress(su.codec, o.receiver);
            && (r.Ok? <==> env.reply(0) == Some(SUCCESS_ACK) && payee.Some? && InI128(Balance(b.app, payee.value, o.denom) + o.amount))
            && (r.Ok? ==> Paid(b.app, r.value.app, payee.value, o.denom, o.amount))
  {
    var st, c := DeliveredCall(su, b.router, env, p, proof, height);
    assert Exec(su.sha, b.router, env, DoRecv(p, proof, height)) == Ok(st);
    OneCallDecides(su, b, env, DoRecv(p, proof, height), st, c);
    DeliveryTaken(su, b.app, c);
    OrderPays(su.codec, b.app, o);
  }

  /** The one callback of a packet with one payload for the transfer port. */
  lemma DeliveredCall(su: Setup, st: State, env: Env, p: Packet, proof: Bytes, height: U64) returns (st': State, c: Call)
    requires PORT in st.port && st.port[PORT] == su.self && |p.payloads| == 1 && p.payloads[0].destPort == PORT
    requires Recv(su.sha, st, env, p, proof, height).Ok?
    ensures Recv(su.sha, st, env, p, proof, height) == Ok(st') && st'.calls == st.calls + [c]
    ensures c.OnRecv? && c.app == su.self && c.payload == p.payloads[0] && env.reply(0) == Some(c.reply)
  {
    st' := Recv(su.sha, st, env, p, proof, height).value;
    ReceptionRecords(su.sha, st, env, p, proof, height);
    var acks, calls :| Recorded(su.sha, st, env, p, acks, calls, st');
    c := OnlyCall(su, st, env, p, acks, calls, st');
  }

  lemma OnlyCall(su: Setup, st: State, env: Env, p: Packet, acks: seq<Bytes>, calls: seq<Call>, st': State) returns (c: Call)
    requires PORT in st.port && st.port[PORT] == su.self && |p.payloads| == 1 && p.payloads[0].destPort == PORT
    requires Recorded(su.sha, st, env, p, acks, calls, st')
    ensures st'.calls == st.calls + [c]
    ensures c.OnRecv? && c.app == su.self && c.payload == p.payloads[0] && env.reply(0) == Some(c.reply)
  {
    c := calls[0];
    assert calls == [c];
  }

  /** A router transaction with one callback goes through exactly when the application takes the callback. */
  lemma OneCallDecides(su: Setup, b: Bridge, env: Env, a: Action, st: State, c: Call)
    requires Exec(su.sha, b.router, env, a) == Ok(st) && st.calls == b.router.calls + [c]
    ensures ExecRouter(su, b, env, a).Ok? <==> OneCall(su, b.app, c).Ok?
    ensures OneCall(su, b.app, c).Ok? ==> ExecRouter(su, b, env, a) == Ok(Bridge(OneCall(su, b.app, c).value, st))
  {
    SingleCall(su, b.app, c);
    CallsDecide(su, b, env, a, st, [c]);
  }

  lemma SingleCall(su: Setup, t: App, c: Call)
    ensures RunCalls(su, t, [c]) == OneCall(su, t, c)
  {
    var cs := [c];
    assert cs[0] == c && cs[1..] == [];
    var r := OneCall(su, t, c);
    if r.Ok? {
      assert RunCalls(su, r.value, []) == Ok(r.value);
    }
  }

  lemma CallsDecide(su: Setup, b: Bridge, env: Env, a: Action, st: State, calls: seq<Call>)
    requires Exec(su.sha, b.router, env, a) == Ok(st) && st.calls == b.router.calls + calls
    ensures var r := RunCalls(su, b.app, calls);
            ExecRouter(su, b, env, a) == if r.Ok? then Ok(Bridge(r.value, st)) else Err(r.error)
  {
    assert st.calls[|b.router.calls|..] == calls;
  }

  /** The application's side of a delivery to itself. */
  lemma DeliveryTaken(su: Setup, t: App, c: Call)
    requires c.OnRecv? && c.app == su.self
    ensures OneCall(su, t, c).Ok? <==> c.reply == SUCCESS_ACK && OnRecvPacket(su.codec, t, c.payload).Ok?
    ensures OneCall(su, t, c).Ok? ==> OneCall(su, t, c) == OnRecvPacket(su.codec, t, c.payload)
  {
  }

  // ---------------------------------------------------------------- over every run

  lemma {:induction false} PlacedIsPositive(pl: Plan, start: Duo, steps: seq<DuoStep>, side: Side, o: Order, p: Packet)
    requires Placed(pl, start, steps, side, o, p)
    ensures o.amount > 0
  {
    if Placed(pl, start, steps[..|steps| - 1], side, o, p) {
      PlacedIsPositive(pl, start, steps[..|steps| - 1], side, o, p);
    }
  }

  /** Over every run of two chains: when the packet of an order placed on one chain is received on the other, the
      account named as its receiver gains exactly the amount in its denomination, and no other account of that
      application changes. */
  lemma OrderPaysReceiver(pl: Plan, start: Duo, steps: seq<DuoStep>, side: Side, o: Order, p: Packet, env: Env, proof: Bytes, height: U64)
    requires Compatible(pl) && DuoStart(pl, start) && Placed(pl, start, steps, side, o, p)
    requires var d := RunDuo(pl, start, steps);
             ExecOp(pl.At(Other(side)), d.BridgeAt(Other(side)), env, RouterOp(DoRecv(p, proof, height))).Ok?
    ensures var d := RunDuo(pl, start, steps);
            var d' := NextDuo(pl, d, Act(Other(side), BridgeTx(env, RouterOp(DoRecv(p, proof, height)))));
            && StringToAddress(pl.At(side).codec, o.receiver).Some?
            && Paid(d.AppAt(Other(side)), d'.AppAt(Other(side)), StringToAddress(pl.At(side).codec, o.receiver).value, o.denom, o.amount)
            && d'.AppAt(side) == d.AppAt(side)
  {
    var d := RunDuo(pl, start, steps);
    PlacedPayload(pl, start, steps, side, o, p);
    PlacedIsPositive(pl, start, steps, side, o, p);
    StartTallies(pl, Link({}, {}), start, Other(side), []);
    RunTallies(pl, Link({}, {}), start, steps, Other(side), []);
    ReceivedOrderPays(pl.At(Other(side)), d.BridgeAt(Other(side)), env, p, proof, height, o);
  }

  /** Over every legal run and honest clients: a received packet with a payload from transfer port to transfer port
      is the packet of an order of the other chain, and its receive pays the receiver of that order, or a
      collision is computed. */
  lemma TransferPaysItsOrder(pl: Plan, start: Duo, steps: seq<DuoStep>, side: Side, q: Packet, env: Env, proof: Bytes, height: U64)
    requires Compatible(pl) && DuoStart(pl, start)
    requires LegalDuoRun(pl, start, steps + [Act(Other(side), BridgeTx(env, RouterOp(DoRecv(q, proof, height))))])
    requires var d := RunDuo(pl, start, steps);
             && ExecOp(pl.At(Other(side)), d.BridgeAt(Other(side)), env, RouterOp(DoRecv(q, proof, height))).Ok?
             && Delivered(d.world.At(side), d.world.At(Other(side)), q) && CarriesTransfer(q)
    ensures var s := Act(Other(side), BridgeTx(env, RouterOp(DoRecv(q, proof, height))));
            var d, d' := RunDuo(pl, start, steps), RunDuo(pl, start, steps + [s]);
            || (exists o :: Placed(pl, start, steps, side, o, q) && PaysOrder(pl, d, d', side, o))
            || Collides(pl.At(side).sha, d'.world.At(side), d'.world.At(Other(side)), q)
            || SomeForgingStep(pl, start, steps + [s])
  {
    var s := Act(Other(side), BridgeTx(env, RouterOp(DoRecv(q, proof, height))));
    var all := steps + [s];
    assert all[..|steps|] == steps;
    var d, d' := RunDuo(pl, start, steps), RunDuo(pl, start, all);
    assert d' == NextDuo(pl, d, s);
    DuoStartInv(pl, start);
    RunKeepsDuo(pl, start, all);
    if DuoInv(pl, d') {
      ReceivedNow(pl, d, side, q, env, proof, height);
      GenuineAt(pl, d', side, q);
      if Genuine(pl.At(side), d'.world.At(side), q) {
        LegalPrefix(pl, start, all);
        OwnSendsWerePlaced(pl, start, steps, side, q);
        var o :| Placed(pl, start, steps, side, o, q);
        OrderPaysReceiver(pl, start, steps, side, o, q, env, proof, height);
        assert PaysOrder(pl, d, d', side, o);
      }
    }
  }

  ghost predicate PaysOrder(pl: Plan, d: Duo, d': Duo, side: Side, o: Order) {
    && StringToAddress(pl.At(side).codec, o.receiver).Some?
    && Paid(d.AppAt(Other(side)), d'.AppAt(Other(side)), StringToAddress(pl.At(side).codec, o.receiver).value, o.denom, o.amount)
  }

  lemma ReceivedNow(pl: Plan, d: Duo, side: Side, q: Packet, env: Env, proof: Bytes, height: U64)
    requires ExecOp(pl.At(Other(side)), d.BridgeAt(Other(side)), env, RouterOp(DoRecv(q, proof, height))).Ok?
    ensures var d' := NextDuo(pl, d, Act(Other(side), BridgeTx(env, RouterOp(DoRecv(q, proof, height)))));
            && RecvPacket(q) in d'.world.At(Other(side)).router.events
            && d'.world.At(side) == d.world.At(side)
            && d'.world.At(Other(side)).honest == d.world.At(Other(side)).honest
  {
    var su, b := pl.At(Other(side)), d.BridgeAt(Other(side));
    var b' := ExecOp(su, b, env, RouterOp(DoRecv(q, proof, height))).value;
    var calls, acks := RecvAction(su, b, env, q, proof, height, b');
  }
}
