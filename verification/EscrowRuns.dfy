/** Escrow, refunds and total supply over every run of the transfer application and its router. */
module EscrowRuns {
  import opened Prelude
  import opened Commitments
  import opened Router
  import opened RouterRuns
  import opened Settleable
  import opened Transfer
  import opened Escrow

  // ---------------------------------------------------------------- every operation keeps the invariant

  lemma CreditKeepsCover(su: Setup, b: Bridge, payee: Address, denom: Bytes, amount: I128)
    requires BridgeInv(su, b) && amount >= 0 && Credit(b.app, payee, denom, amount).Ok?
    ensures BridgeInv(su, b.(app := Credit(b.app, payee, denom, amount).value))
  {
    var b' := b.(app := Credit(b.app, payee, denom, amount).value);
    forall d ensures Balance(b'.app, su.self, d) >= InFlight(su, b'.router.events, Outstanding(su.sha, b'.router.events), d) {
      assert Balance(b'.app, su.self, d) >= Balance(b.app, su.self, d);
    }
  }

  lemma CapKeepsCover(su: Setup, b: Bridge, caps: map<Bytes, I128>)
    requires BridgeInv(su, b)
    ensures BridgeInv(su, b.(app := b.app.(caps := caps)))
  {
    var b' := b.(app := b.app.(caps := caps));
    forall d ensures Balance(b'.app, su.self, d) >= InFlight(su, b'.router.events, Outstanding(su.sha, b'.router.events), d) {
      assert Balance(b'.app, su.self, d) == Balance(b.app, su.self, d);
    }
  }

  /** Registrations and client updates make no callback and touch no packet. */
  lemma QuietKeepsCover(su: Setup, b: Bridge, st: State)
    requires BridgeInv(su, b) && Inv(su.sha, st) && Keeps(b.router.port, st.port)
    requires st.events == b.router.events && st.commitments == b.router.commitments
    ensures BridgeInv(su, b.(router := st))
  {
  }

  /** The callbacks the application sees are the ones the router added. */
  lemma NewCalls(su: Setup, b: Bridge, env: Env, a: Action, calls: seq<Call>, b': Bridge)
    requires ExecRouter(su, b, env, a) == Ok(b') && b'.router.calls == b.router.calls + calls
    ensures RunCalls(su, b.app, calls) == Ok(b'.app) && Exec(su.sha, b.router, env, a) == Ok(b'.router)
  {
    assert b'.router.calls[|b.router.calls|..] == calls;
  }

  lemma NoCalls(su: Setup, b: Bridge, env: Env, a: Action, b': Bridge)
    requires ExecRouter(su, b, env, a) == Ok(b') && b'.router.calls == b.router.calls
    ensures b'.app == b.app
  {
    assert b'.router.calls[|b.router.calls|..] == [];
  }

  lemma QuietActionKeeps(su: Setup, b: Bridge, env: Env, a: Action, b': Bridge)
    requires BridgeInv(su, b) && IsRegistration(a) && ExecRouter(su, b, env, a) == Ok(b')
    ensures BridgeInv(su, b')
  {
    ExecKeeps(su.sha, b.router, env, a);
    RegistrationIsQuiet(su.sha, b.router, env, a);
    NoCalls(su, b, env, a, b');
    QuietKeepsCover(su, b, b'.router);
  }

  lemma RecvAction(su: Setup, b: Bridge, env: Env, p: Packet, proof: Bytes, height: U64, b': Bridge) returns (calls: seq<Call>, acks: seq<Bytes>)
    requires ExecRouter(su, b, env, DoRecv(p, proof, height)) == Ok(b')
    ensures Reception(su.sha, b.router, p, calls, acks, b'.router)
    ensures RunCalls(su, b.app, calls) == Ok(b'.app)
  {
    assert Recv(su.sha, b.router, env, p, proof, height) == Ok(b'.router);
    calls, acks := RecvIsReception(su.sha, b.router, env, p, proof, height);
    NewCalls(su, b, env, DoRecv(p, proof, height), calls, b');
  }

  lemma RecvActionKeeps(su: Setup, b: Bridge, env: Env, p: Packet, proof: Bytes, height: U64, b': Bridge)
    requires BridgeInv(su, b) && ExecRouter(su, b, env, DoRecv(p, proof, height)) == Ok(b')
    requires forall i :: 0 <= i < |p.payloads| ==> InboundAmount(su, p.payloads[i]) >= 0
    ensures BridgeInv(su, b')
  {
    var calls, acks := RecvAction(su, b, env, p, proof, height, b');
    ReceptionCovers(su, b, p, calls, acks, b');
  }

  lemma AckAction(su: Setup, b: Bridge, env: Env, p: Packet, acks: seq<Bytes>, proof: Bytes, height: U64, b': Bridge) returns (calls: seq<Call>)
    requires ExecRouter(su, b, env, DoAcknowledge(p, acks, proof, height)) == Ok(b')
    ensures Settlement(su.sha, b.router, p, AckPacket(p, acks), calls, b'.router) && CallsMatch(su.sha, AckPacket(p, acks), calls)
    ensures RunCalls(su, b.app, calls) == Ok(b'.app)
  {
    AcknowledgeSettles(su.sha, b.router, env, p, acks, proof, height);
    calls := AckCalls(su.sha, b.router.port, env, p, acks, |p.payloads|).value;
    NewCalls(su, b, env, DoAcknowledge(p, acks, proof, height), calls, b');
  }

  lemma AckActionKeeps(su: Setup, b: Bridge, env: Env, p: Packet, acks: seq<Bytes>, proof: Bytes, height: U64, b': Bridge)
    requires BridgeInv(su, b) && IsSent(b.router, p)
    requires ExecRouter(su, b, env, DoAcknowledge(p, acks, proof, height)) == Ok(b')
    ensures BridgeInv(su, b')
  {
    var calls := AckAction(su, b, env, p, acks, proof, height, b');
    SettlementKeeps(su, b, p, AckPacket(p, acks), calls, b');
  }

  lemma TimeoutAction(su: Setup, b: Bridge, env: Env, p: Packet, proof: Bytes, height: U64, b': Bridge) returns (calls: seq<Call>)
    requires ExecRouter(su, b, env, DoTimeout(p, proof, height)) == Ok(b')
    ensures Settlement(su.sha, b.router, p, TimeoutPacket(p), calls, b'.router) && CallsMatch(su.sha, TimeoutPacket(p), calls)
    ensures RunCalls(su, b.app, calls) == Ok(b'.app)
  {
    TimeoutSettles(su.sha, b.router, env, p, proof, height);
    calls := TimeoutCalls(b.router.port, env, p, |p.payloads|).value;
    NewCalls(su, b, env, DoTimeout(p, proof, height), calls, b');
  }

  lemma TimeoutActionKeeps(su: Setup, b: Bridge, env: Env, p: Packet, proof: Bytes, height: U64, b': Bridge)
    requires BridgeInv(su, b) && IsSent(b.router, p)
    requires ExecRouter(su, b, env, DoTimeout(p, proof, height)) == Ok(b')
    ensures BridgeInv(su, b')
  {
    var calls := TimeoutAction(su, b, env, p, proof, height, b');
    SettlementKeeps(su, b, p, TimeoutPacket(p), calls, b');
  }

  lemma SendMakesNoCalls(sha: Hash, st: State, env: Env, client: Bytes, timeout: U64, payloads: seq<Payload>)
    requires Send(sha, st, env, client, timeout, payloads).Ok?
    ensures Send(sha, st, env, client, timeout, payloads).value.calls == st.calls
  {
  }

  lemma SendActionKeeps(su: Setup, b: Bridge, env: Env, client: Bytes, timeout: U64, payloads: seq<Payload>, b': Bridge)
    requires BridgeInv(su, b) && su.self !in env.auth
    requires ExecRouter(su, b, env, DoSend(client, timeout, payloads)) == Ok(b')
    ensures BridgeInv(su, b')
  {
    SendMakesNoCalls(su.sha, b.router, env, client, timeout, payloads);
    NoCalls(su, b, env, DoSend(client, timeout, payloads), b');
    ForeignSendKeeps(su, b, env, client, timeout, payloads, b');
  }

  lemma RouterActionKeeps(su: Setup, b: Bridge, tx: BridgeTx, a: Action, b': Bridge)
    requires BridgeInv(su, b) && tx.op == RouterOp(a) && Permitted(su, tx) && !Forges(su, b, tx)
    requires ExecRouter(su, b, tx.env, a) == Ok(b')
    ensures BridgeInv(su, b')
  {
    match a
    case DoSend(client, timeout, payloads) => SendActionKeeps(su, b, tx.env, client, timeout, payloads, b');
    case DoRecv(p, proof, height) => RecvActionKeeps(su, b, tx.env, p, proof, height, b');
    case DoAcknowledge(p, acks, proof, height) => AckActionKeeps(su, b, tx.env, p, acks, proof, height, b');
    case DoTimeout(p, proof, height) => TimeoutActionKeeps(su, b, tx.env, p, proof, height, b');
    case DoWriteAck(client, sequence, acks) => WriteAckRefused(su.sha, b.router, client, sequence, acks);
    case _ => QuietActionKeeps(su, b, tx.env, a, b');
  }

  lemma ExecOpKeeps(su: Setup, b: Bridge, tx: BridgeTx)
    requires BridgeInv(su, b) && Inverts(su.codec) && Permitted(su, tx) && !Forges(su, b, tx)
    requires ExecOp(su, b, tx.env, tx.op).Ok?
    ensures BridgeInv(su, ExecOp(su, b, tx.env, tx.op).value)
  {
    var b' := ExecOp(su, b, tx.env, tx.op).value;
    match tx.op
    case MintOp(payee, denom, amount) => CreditKeepsCover(su, b, payee, denom, amount);
    case CapOp(denom, cap) => CapKeepsCover(su, b, b.app.caps[denom := cap]);
    case TransferOp(o) => TransferKeeps(su, b, tx.env, o);
    case RouterOp(a) => RouterActionKeeps(su, b, tx, a, b');
  }

  // ---------------------------------------------------------------- runs

  /** The packet a settlement presents. */
  function Presented(op: Op): Option<Packet> {
    match op
    case RouterOp(DoAcknowledge(p, _, _, _)) => Some(p)
    case RouterOp(DoTimeout(p, _, _)) => Some(p)
    case _ => None
  }

  /** The transaction settled a packet other than the one sent under its client and sequence, and
      the two packets yield a hash collision. */
  ghost predicate Forged(su: Setup, b: Bridge, tx: BridgeTx) {
    && Presented(tx.op).Some?
    && var p := Presented(tx.op).value;
       var sent := Last(b.router.events, Sent, (p.sourceClient, p.sequence));
       && sent.Some? && !SameCommitted(sent.value.packet, p)
       && CommitPacket(su.sha, sent.value.packet) == CommitPacket(su.sha, p)
       && Breaks(su.sha, PacketEvidence(su.sha, sent.value.packet, p))
  }

  lemma ForgerWasForging(su: Setup, b: Bridge, tx: BridgeTx)
    requires Inv(su.sha, b.router) && Forges(su, b, tx)
    ensures Forged(su, b, tx)
  {
    var p := Presented(tx.op).value;
    assert KeyInv(su.sha, b.router, (p.sourceClient, p.sequence));
    PresentedMatches(su, b, tx, p);
  }

  lemma PresentedMatches(su: Setup, b: Bridge, tx: BridgeTx, p: Packet)
    requires Presented(tx.op) == Some(p) && ExecOp(su, b, tx.env, tx.op).Ok?
    ensures SettleError(su.sha, b.router, p) == None
  {
  }

  /** The router has just been opened to the application under its port. */
  ghost predicate Opened(su: Setup, admin: Address, before: seq<Tx>, env: Env, b: Bridge) {
    && RegisterPort(Run(su.sha, Initial(admin), before), env, PORT, su.self) == Ok(b.router)
    && forall denom :: Balance(b.app, su.self, denom) >= 0
  }

  lemma OpenedInv(su: Setup, admin: Address, before: seq<Tx>, env: Env, b: Bridge)
    requires Opened(su, admin, before, env, b)
    ensures BridgeInv(su, b)
  {
    var st := Run(su.sha, Initial(admin), before);
    Reachable(su.sha, admin, before);
    RegisterPortKeeps(su.sha, st, env, PORT, su.self);
    assert forall p :: SendPacket(p) in st.events ==> PortsKnown(st.port, p);
    var keys := Outstanding(su.sha, b.router.events);
    forall denom ensures InFlight(su, b.router.events, keys, denom) == 0 {
      NothingInFlight(su, b.router.events, keys, denom, st.port);
    }
  }

  lemma {:induction false} NothingInFlight(su: Setup, events: seq<Event>, live: set<SeqKey>, denom: Bytes, port: map<Bytes, Address>)
    requires PORT !in port && forall p :: SendPacket(p) in events ==> PortsKnown(port, p)
    ensures InFlight(su, events, live, denom) == 0
  {
    if |events| > 0 {
      var e := events[|events| - 1];
      NothingInFlight(su, events[..|events| - 1], live, denom, port);
      if e.SendPacket? {
        assert PortsKnown(port, e.packet);
      }
    }
  }

  ghost predicate SomeForged(su: Setup, b: Bridge, txs: seq<BridgeTx>) {
    exists k :: 0 <= k < |txs| && Forged(su, RunBridge(su, b, txs[..k]), txs[k])
  }

  lemma ForgedBefore(su: Setup, b: Bridge, txs: seq<BridgeTx>)
    requires |txs| > 0 && SomeForged(su, b, txs[..|txs| - 1])
    ensures SomeForged(su, b, txs)
  {
    var front := txs[..|txs| - 1];
    var k :| 0 <= k < |front| && Forged(su, RunBridge(su, b, front[..k]), front[k]);
    assert front[..k] == txs[..k];
  }

  lemma {:induction false} RunBridgeKeeps(su: Setup, b: Bridge, txs: seq<BridgeTx>)
    requires BridgeInv(su, b) && Inverts(su.codec)
    requires forall k :: 0 <= k < |txs| ==> Permitted(su, txs[k])
    ensures BridgeInv(su, RunBridge(su, b, txs)) || SomeForged(su, b, txs)
  {
    if |txs| > 0 {
      var front, tx := txs[..|txs| - 1], txs[|txs| - 1];
      var mid := RunBridge(su, b, front);
      RunBridgeKeeps(su, b, front);
      if SomeForged(su, b, front) {
        ForgedBefore(su, b, txs);
      } else if Forges(su, mid, tx) {
        ForgerWasForging(su, mid, tx);
      } else if ExecOp(su, mid, tx.env, tx.op).Ok? {
        ExecOpKeeps(su, mid, tx);
      }
    }
  }

  /** In every state reachable after the application got its port, the escrow balance of every
      denomination is at least the sum of the amounts whose commitment is still present, unless
      some settlement of the run exhibits a hash collision. */
  lemma EscrowCoversInFlight(su: Setup, admin: Address, before: seq<Tx>, env: Env, b: Bridge, txs: seq<BridgeTx>, denom: Bytes)
    requires Opened(su, admin, before, env, b) && Inverts(su.codec)
    requires forall k :: 0 <= k < |txs| ==> Permitted(su, txs[k])
    ensures var end := RunBridge(su, b, txs);
            || Balance(end.app, su.self, denom) >= InFlight(su, end.router.events, end.router.commitments.Keys, denom) >= 0
            || SomeForged(su, b, txs)
  {
    OpenedInv(su, admin, before, env, b);
    RunBridgeKeeps(su, b, txs);
    var end := RunBridge(su, b, txs);
    if BridgeInv(su, end) {
      BackedCovers(su, end);
      InFlightNonNegative(su, end.router.events, end.router.commitments.Keys, denom);
    }
  }

  // ---------------------------------------------------------------- refunds

  /** A live transfer: sent under its key, commitment present, for the transfer port. */
  ghost predicate LiveTransfer(b: Bridge, p: Packet) {
    && IsSent(b.router, p) && (p.sourceClient, p.sequence) in b.router.commitments
    && |p.payloads| == 1 && p.payloads[0].sourcePort == PORT
  }

  lemma EscrowHolds(su: Setup, b: Bridge, p: Packet)
    requires BridgeInv(su, b) && LiveTransfer(b, p)
    ensures Refundable(su, p.payloads[0])
    ensures var d := su.codec.decode(p.payloads[0].value).value;
            Balance(b.app, su.self, d.denom) >= d.amount
  {
    var key := (p.sourceClient, p.sequence);
    var events, live := b.router.events, b.router.commitments.Keys;
    assert KeyInv(su.sha, b.router, key);
    assert WellSent(su, p);
    var d := su.codec.decode(p.payloads[0].value).value;
    BackedCovers(su, b);
    InFlightRemove(su, events, live, key, d.denom);
    InFlightNonNegative(su, events, live - {key}, d.denom);
  }

  /** The refund of a live transfer never lacks balance: it fails exactly when the sender's balance
      would leave the 128-bit range, and otherwise returns the amount in full. */
  ghost predicate RefundsExactly(su: Setup, t: App, d: PacketData, r: Result<App, AppError>) {
    && StringToAddress(su.codec, d.sender).Some?
    && var sender := StringToAddress(su.codec, d.sender).value;
       && (r.Ok? <==> InI128(Balance(t, sender, d.denom) + d.amount))
       && (r.Err? ==> r.error == Aborted)
       && (r.Ok? ==> Balance(r.value, sender, d.denom) == Balance(t, sender, d.denom) + d.amount
                     && Balance(r.value, su.self, d.denom) == Balance(t, su.self, d.denom) - d.amount)
  }

  lemma RefundNeverLacks(su: Setup, b: Bridge, p: Packet, ack: Bytes)
    requires BridgeInv(su, b) && LiveTransfer(b, p)
    ensures su.codec.decode(p.payloads[0].value).Some?
    ensures var d := su.codec.decode(p.payloads[0].value).value;
            && RefundsExactly(su, b.app, d, OnTimeoutPacket(su.codec, b.app, su.self, p.payloads[0]))
            && (IsSuccess(ack) ==> OnAckPacket(su.codec, b.app, su.self, p.payloads[0], ack) == Ok(b.app))
            && (!IsSuccess(ack) ==> RefundsExactly(su, b.app, d, OnAckPacket(su.codec, b.app, su.self, p.payloads[0], ack)))
  {
    EscrowHolds(su, b, p);
    var d := su.codec.decode(p.payloads[0].value).value;
    MoveExactly(b.app, su.self, StringToAddress(su.codec, d.sender).value, d.denom, d.amount);
  }

  /** The same at the end of any run: whatever happened before, a transfer still live is refundable. */
  lemma LiveTransfersRefund(su: Setup, admin: Address, before: seq<Tx>, env: Env, b: Bridge, txs: seq<BridgeTx>, p: Packet, ack: Bytes)
    requires Opened(su, admin, before, env, b) && Inverts(su.codec)
    requires forall k :: 0 <= k < |txs| ==> Permitted(su, txs[k])
    requires LiveTransfer(RunBridge(su, b, txs), p)
    ensures var end := RunBridge(su, b, txs);
            var d := su.codec.decode(p.payloads[0].value);
            || (&& d.Some?
                && RefundsExactly(su, end.app, d.value, OnTimeoutPacket(su.codec, end.app, su.self, p.payloads[0]))
                && (!IsSuccess(ack) ==>
                      RefundsExactly(su, end.app, d.value, OnAckPacket(su.codec, end.app, su.self, p.payloads[0], ack))))
            || SomeForged(su, b, txs)
  {
    OpenedInv(su, admin, before, env, b);
    RunBridgeKeeps(su, b, txs);
    if BridgeInv(su, RunBridge(su, b, txs)) {
      RefundNeverLacks(su, RunBridge(su, b, txs), p, ack);
    }
  }

  // ---------------------------------------------------------------- total supply

  /** What a callback adds to the supply: the amount of an inbound transfer. */
  function Issued(su: Setup, c: Call, denom: Bytes): int {
    if !c.OnRecv? || c.app != su.self then 0
    else match su.codec.decode(c.payload.value)
      case Some(d) => if d.denom == denom then d.amount else 0
      case None => 0
  }

  function IssuedBy(su: Setup, calls: seq<Call>, denom: Bytes): int
    decreases |calls|
  {
    if |calls| == 0 then 0 else Issued(su, calls[0], denom) + IssuedBy(su, calls[1..], denom)
  }

  lemma {:induction false} IssuedAppend(su: Setup, calls: seq<Call>, more: seq<Call>, denom: Bytes)
    ensures IssuedBy(su, calls + more, denom) == IssuedBy(su, calls, denom) + IssuedBy(su, more, denom)
    decreases |calls|
  {
    if |calls| == 0 {
      assert calls + more == more;
    } else {
      assert (calls + more)[1..] == calls[1..] + more;
      IssuedAppend(su, calls[1..], more, denom);
    }
  }

  lemma OneCallSupply(su: Setup, t: App, c: Call, denom: Bytes)
    requires OneCall(su, t, c).Ok?
    ensures Supply(OneCall(su, t, c).value, denom) == Supply(t, denom) + Issued(su, c, denom)
  {
    if c.app == su.self {
      var d := su.codec.decode(c.payload.value);
      if c.OnRecv? {
        CreditAddsSupply(t, StringToAddress(su.codec, d.value.receiver).value, d.value.denom, d.value.amount, denom);
      } else if OneCall(su, t, c).value != t {
        MovePreservesSupply(t, su.self, StringToAddress(su.codec, d.value.sender).value, d.value.denom, d.value.amount, denom);
      }
    }
  }

  lemma {:induction false} RunCallsSupply(su: Setup, t: App, calls: seq<Call>, denom: Bytes)
    requires RunCalls(su, t, calls).Ok?
    ensures Supply(RunCalls(su, t, calls).value, denom) == Supply(t, denom) + IssuedBy(su, calls, denom)
    decreases |calls|
  {
    if |calls| > 0 {
      OneCallSupply(su, t, calls[0], denom);
      RunCallsSupply(su, OneCall(su, t, calls[0]).value, calls[1..], denom);
    }
  }

  /** What minting adds over a run. */
  function MintedOver(su: Setup, b: Bridge, txs: seq<BridgeTx>, denom: Bytes): int {
    if |txs| == 0 then 0
    else
      var front, tx := txs[..|txs| - 1], txs[|txs| - 1];
      MintedOver(su, b, front, denom)
      + (if ExecOp(su, RunBridge(su, b, front), tx.env, tx.op).Ok? then MintedBy(tx.op, denom) else 0)
  }

  function MintedBy(op: Op, denom: Bytes): int {
    match op
    case MintOp(_, d, amount) => if d == denom then amount else 0
    case _ => 0
  }

  lemma ExecOpKeepsRouter(su: Setup, b: Bridge, env: Env, op: Op)
    requires Inv(su.sha, b.router) && ExecOp(su, b, env, op).Ok?
    ensures Inv(su.sha, ExecOp(su, b, env, op).value.router)
    ensures b.router.calls <= ExecOp(su, b, env, op).value.router.calls
  {
    match op
    case TransferOp(o) =>
      SendKeeps(su.sha, b.router, env.(auth := {su.self}), o.client, o.timeout, [PayloadFor(su.codec, o).value]);
    case RouterOp(a) => ExecKeeps(su.sha, b.router, env, a);
    case _ =>
  }

  lemma TransferSupply(su: Setup, b: Bridge, env: Env, o: Order, denom: Bytes)
    requires ExecTransfer(su, b, env, o).Ok?
    ensures Supply(ExecTransfer(su, b, env, o).value.app, denom) == Supply(b.app, denom)
    ensures ExecTransfer(su, b, env, o).value.router.calls == b.router.calls
  {
    var t := EnforceLimit(b.app, env.time, o.denom, o.amount).value;
    assert t.balances == b.app.balances;
    MovePreservesSupply(t, o.sender, su.self, o.denom, o.amount, denom);
  }

  /** Sending and refunding preserve the supply of every denomination; minting and inbound
      transfers add exactly their amount. */
  lemma ExecOpSupply(su: Setup, b: Bridge, env: Env, op: Op, denom: Bytes)
    requires Inv(su.sha, b.router) && ExecOp(su, b, env, op).Ok?
    ensures var b' := ExecOp(su, b, env, op).value;
            Supply(b'.app, denom) - IssuedBy(su, b'.router.calls, denom)
            == Supply(b.app, denom) - IssuedBy(su, b.router.calls, denom) + MintedBy(op, denom)
  {
    var b' := ExecOp(su, b, env, op).value;
    match op
    case MintOp(payee, d, amount) => CreditAddsSupply(b.app, payee, d, amount, denom);
    case CapOp(d, cap) =>
    case TransferOp(o) => TransferSupply(su, b, env, o, denom);
    case RouterOp(a) =>
      ExecOpKeepsRouter(su, b, env, op);
      var more := b'.router.calls[|b.router.calls|..];
      assert b'.router.calls == b.router.calls + more;
      RunCallsSupply(su, b.app, more, denom);
      IssuedAppend(su, b.router.calls, more, denom);
  }

  lemma {:induction false} SupplyOverRuns(su: Setup, b: Bridge, txs: seq<BridgeTx>, denom: Bytes)
    requires Inv(su.sha, b.router)
    ensures var end := RunBridge(su, b, txs);
            && Inv(su.sha, end.router)
            && Supply(end.app, denom) - IssuedBy(su, end.router.calls, denom)
               == Supply(b.app, denom) - IssuedBy(su, b.router.calls, denom) + MintedOver(su, b, txs, denom)
  {
    if |txs| > 0 {
      var front, tx := txs[..|txs| - 1], txs[|txs| - 1];
      var mid := RunBridge(su, b, front);
      SupplyOverRuns(su, b, front, denom);
      if ExecOp(su, mid, tx.env, tx.op).Ok? {
        ExecOpKeepsRouter(su, mid, tx.env, tx.op);
        ExecOpSupply(su, mid, tx.env, tx.op, denom);
      }
    }
  }
}
