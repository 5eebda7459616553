/** The transfer application on its router: escrow always covers the transfers in flight. */
module Escrow {
  import opened Prelude
  import opened Commitments
  import opened Router
  import opened RouterRuns
  import opened Transfer

  /** What is fixed at deployment: the hash, the wire formats, the application's own address
      (which is the escrow account) and the administrator. */
  datatype Setup = Setup(sha: Hash, codec: Codec, self: Address, admin: Address)

  datatype Bridge = Bridge(app: App, router: State)

  datatype Op =
    | MintOp(payee: Address, denom: Bytes, amount: I128)
    | CapOp(denom: Bytes, cap: I128)
    | TransferOp(order: Order)
    | RouterOp(action: Action)

  // ---------------------------------------------------------------- transactions

  /** The application's side of one callback. Its answer to a receive is always the success byte. */
  function OneCall(su: Setup, t: App, c: Call): Result<App, AppError> {
    if c.app != su.self then Ok(t)
    else match c
      case OnRecv(_, _, _, _, payload, reply) =>
        if reply != SUCCESS_ACK then Err(Aborted) else OnRecvPacket(su.codec, t, payload)
      case OnAck(_, _, _, _, payload, ack) => OnAckPacket(su.codec, t, su.self, payload, ack)
      case OnTimeout(_, _, _, _, payload) => OnTimeoutPacket(su.codec, t, su.self, payload)
  }

  function RunCalls(su: Setup, t: App, calls: seq<Call>): Result<App, AppError>
    decreases |calls|
  {
    if |calls| == 0 then Ok(t)
    else match OneCall(su, t, calls[0])
      case Err(e) => Err(e)
      case Ok(t') => RunCalls(su, t', calls[1..])
  }

  /** The router is entered with the application's own authorisation, as a direct caller. */
  function ExecTransfer(su: Setup, b: Bridge, env: Env, o: Order): Result<Bridge, AppError> {
    match Escrowed(b.app, su.self, env, o)
    case Err(e) => Err(e)
    case Ok(t) =>
      match PayloadFor(su.codec, o)
      case None => Err(Aborted)
      case Some(payload) =>
        match Send(su.sha, b.router, env.(auth := {su.self}), o.client, o.timeout, [payload])
        case Err(e) => Err(RouterRefused(e))
        case Ok(st) => Ok(Bridge(t, st))
  }

  /** A router transaction and the application's part of its callbacks. (The log of callbacks never
      shrinks, by `RouterRuns.ExecKeeps`; the test only keeps the slice below well defined.) */
  function ExecRouter(su: Setup, b: Bridge, env: Env, a: Action): Result<Bridge, AppError> {
    match Exec(su.sha, b.router, env, a)
    case Err(e) => Err(RouterRefused(e))
    case Ok(st) =>
      if |st.calls| < |b.router.calls| then Err(Aborted)
      else match RunCalls(su, b.app, st.calls[|b.router.calls|..])
        case Err(e) => Err(e)
        case Ok(t) => Ok(Bridge(t, st))
  }

  function ExecOp(su: Setup, b: Bridge, env: Env, op: Op): Result<Bridge, AppError> {
    match op
    case MintOp(payee, denom, amount) =>
      (match Mint(b.app, payee, denom, amount)
       case Err(e) => Err(e)
       case Ok(t) => Ok(b.(app := t)))
    case CapOp(denom, cap) =>
      (match SetRateLimit(b.app, su.admin, env.auth, denom, cap)
       case Err(e) => Err(e)
       case Ok(t) => Ok(b.(app := t)))
    case TransferOp(o) => ExecTransfer(su, b, env, o)
    case RouterOp(a) => ExecRouter(su, b, env, a)
  }

  datatype BridgeTx = BridgeTx(env: Env, op: Op)

  function RunBridge(su: Setup, b: Bridge, txs: seq<BridgeTx>): Bridge {
    if |txs| == 0 then b
    else
      var mid := RunBridge(su, b, txs[..|txs| - 1]);
      match ExecOp(su, mid, txs[|txs| - 1].env, txs[|txs| - 1].op)
      case Ok(b') => b'
      case Err(_) => mid
  }

  // ---------------------------------------------------------------- hypotheses on transactions

  /** Nobody acts as the application itself, and inbound packets carry no negative amount. */
  ghost predicate Permitted(su: Setup, tx: BridgeTx) {
    match tx.op
    case TransferOp(o) => o.sender != su.self
    case RouterOp(DoSend(_, _, _)) => su.self !in tx.env.auth
    case RouterOp(DoRecv(p, _, _)) =>
      forall i :: 0 <= i < |p.payloads| ==> InboundAmount(su, p.payloads[i]) >= 0
    case _ => true
  }

  function InboundAmount(su: Setup, payload: Payload): int {
    match su.codec.decode(payload.value)
    case Some(d) => d.amount
    case None => 0
  }

  /** A settlement that presents another packet than the one sent under its sequence. */
  predicate Forges(su: Setup, b: Bridge, tx: BridgeTx) {
    match tx.op
    case RouterOp(DoAcknowledge(p, _, _, _)) => ExecOp(su, b, tx.env, tx.op).Ok? && !IsSent(b.router, p)
    case RouterOp(DoTimeout(p, _, _)) => ExecOp(su, b, tx.env, tx.op).Ok? && !IsSent(b.router, p)
    case _ => false
  }

  predicate IsSent(st: State, p: Packet) {
    Last(st.events, Sent, (p.sourceClient, p.sequence)) == Some(SendPacket(p))
  }

  // ---------------------------------------------------------------- what is in flight

  /** The amount of `denom` a packet sent by the application carries. */
  function Carried(su: Setup, p: Packet, denom: Bytes): int {
    if |p.payloads| != 1 || p.payloads[0].sourcePort != PORT then 0
    else match su.codec.decode(p.payloads[0].value)
      case Some(d) => if d.denom == denom then d.amount else 0
      case None => 0
  }

  /** The sum of the amounts of `denom` in sent packets whose commitment is still present. */
  function InFlight(su: Setup, events: seq<Event>, live: set<SeqKey>, denom: Bytes): int {
    if |events| == 0 then 0
    else
      var e := events[|events| - 1];
      InFlight(su, events[..|events| - 1], live, denom)
      + (if e.SendPacket? && (e.packet.sourceClient, e.packet.sequence) in live then Carried(su, e.packet, denom) else 0)
  }

  lemma InFlightAppend(su: Setup, events: seq<Event>, e: Event, live: set<SeqKey>, denom: Bytes)
    ensures InFlight(su, events + [e], live, denom)
         == InFlight(su, events, live, denom)
            + (if e.SendPacket? && (e.packet.sourceClient, e.packet.sequence) in live then Carried(su, e.packet, denom) else 0)
  {
    assert (events + [e])[..|events|] == events;
  }

  /** Keys that were never sent do not matter. */
  lemma {:induction false} InFlightIgnores(su: Setup, events: seq<Event>, live: set<SeqKey>, live': set<SeqKey>, key: SeqKey, denom: Bytes)
    requires Count(events, Sent, key) == 0
    requires forall k :: k != key ==> (k in live <==> k in live')
    ensures InFlight(su, events, live, denom) == InFlight(su, events, live', denom)
  {
    if |events| > 0 {
      InFlightIgnores(su, events[..|events| - 1], live, live', key, denom);
    }
  }

  /** Settling a live packet takes exactly its amount out. */
  lemma {:induction false} InFlightRemove(su: Setup, events: seq<Event>, live: set<SeqKey>, key: SeqKey, denom: Bytes)
    requires key in live && Count(events, Sent, key) == 1
    ensures InFlight(su, events, live, denom)
         == InFlight(su, events, live - {key}, denom) + Carried(su, Last(events, Sent, key).value.packet, denom)
  {
    var front, e := events[..|events| - 1], events[|events| - 1];
    if KeyOf(e, Sent) == Some(key) {
      InFlightIgnores(su, front, live, live - {key}, key, denom);
    } else {
      InFlightRemove(su, front, live, key, denom);
    }
  }

  // ---------------------------------------------------------------- what is outstanding

  /** A settlement that makes the application refund its (first) payload. */
  predicate Refunding(sha: Hash, e: Event) {
    e.TimeoutPacket? || (e.AckPacket? && !IsSuccess(AckFor(sha, e.acks, 0)))
  }

  predicate WasRefunded(sha: Hash, events: seq<Event>, key: SeqKey) {
    Count(events, Settled, key) > 0 && Refunding(sha, Last(events, Settled, key).value)
  }

  /** The keys of sent packets that were not refunded: in flight, or delivered. */
  function Outstanding(sha: Hash, events: seq<Event>): set<SeqKey> {
    set e | e in events && e.SendPacket? && !WasRefunded(sha, events, (e.packet.sourceClient, e.packet.sequence))
      :: (e.packet.sourceClient, e.packet.sequence)
  }

  lemma IsOutstanding(sha: Hash, events: seq<Event>, key: SeqKey)
    ensures key in Outstanding(sha, events) <==> Count(events, Sent, key) > 0 && !WasRefunded(sha, events, key)
  {
    forall e | e in events && e.SendPacket? && (e.packet.sourceClient, e.packet.sequence) == key
      ensures Count(events, Sent, key) > 0
    {
      OccursIsCounted(events, e, Sent, key);
    }
    if Count(events, Sent, key) > 0 {
      assert Last(events, Sent, key).value in events;
    }
  }

  /** How one event changes what is outstanding. */
  lemma OutstandingStep(sha: Hash, events: seq<Event>, e: Event, key: SeqKey)
    ensures key in Outstanding(sha, events + [e]) <==>
      if KeyOf(e, Sent) == Some(key) then !WasRefunded(sha, events, key)
      else if KeyOf(e, Settled) == Some(key) then Count(events, Sent, key) > 0 && !Refunding(sha, e)
      else key in Outstanding(sha, events)
  {
    IsOutstanding(sha, events, key);
    IsOutstanding(sha, events + [e], key);
    Appended(events, e, Sent, key);
    Appended(events, e, Settled, key);
  }

  lemma OutstandingAfterSend(sha: Hash, events: seq<Event>, p: Packet)
    requires Count(events, Settled, (p.sourceClient, p.sequence)) == 0
    ensures Outstanding(sha, events + [SendPacket(p)]) == Outstanding(sha, events) + {(p.sourceClient, p.sequence)}
  {
    forall k: SeqKey ensures k in Outstanding(sha, events + [SendPacket(p)])
                        <==> k in Outstanding(sha, events) + {(p.sourceClient, p.sequence)} {
      OutstandingStep(sha, events, SendPacket(p), k);
    }
  }

  /** A refund takes its key out; any other settlement of a live packet changes nothing. */
  lemma OutstandingAfterSettlement(sha: Hash, events: seq<Event>, e: Event, key: SeqKey)
    requires KeyOf(e, Settled) == Some(key) && Count(events, Sent, key) > 0 && Count(events, Settled, key) == 0
    ensures key in Outstanding(sha, events)
    ensures Outstanding(sha, events + [e]) == Outstanding(sha, events) - (if Refunding(sha, e) then {key} else {})
  {
    IsOutstanding(sha, events, key);
    forall k: SeqKey ensures k in Outstanding(sha, events + [e])
                        <==> k in Outstanding(sha, events) - (if Refunding(sha, e) then {key} else {}) {
      OutstandingStep(sha, events, e, k);
    }
  }

  lemma OutstandingUntouched(sha: Hash, events: seq<Event>, e: Event)
    requires e.RecvPacket? || e.WriteAck?
    ensures Outstanding(sha, events + [e]) == Outstanding(sha, events)
  {
    forall k: SeqKey ensures k in Outstanding(sha, events + [e]) <==> k in Outstanding(sha, events) {
      OutstandingStep(sha, events, e, k);
    }
  }

  // ---------------------------------------------------------------- the invariant

  /** A sent packet touching the transfer port is a single refundable transfer order. */
  ghost predicate WellSent(su: Setup, p: Packet) {
    forall i :: 0 <= i < |p.payloads| && p.payloads[i].sourcePort == PORT ==>
      |p.payloads| == 1 && Refundable(su, p.payloads[0])
  }

  ghost predicate Refundable(su: Setup, payload: Payload) {
    var d := su.codec.decode(payload.value);
    && d.Some? && d.value.amount > 0
    && StringToAddress(su.codec, d.value.sender).Some?
    && StringToAddress(su.codec, d.value.sender).value != su.self
  }

  ghost predicate AllWellSent(su: Setup, st: State) {
    forall p :: SendPacket(p) in st.events ==> WellSent(su, p)
  }

  /** Escrow covers every transfer whose commitment is still present. */
  ghost predicate Covered(su: Setup, b: Bridge) {
    forall denom :: Balance(b.app, su.self, denom) >= InFlight(su, b.router.events, b.router.commitments.Keys, denom)
  }

  /** More than that: escrow covers every transfer that was not refunded, delivered ones included. */
  ghost predicate Backed(su: Setup, b: Bridge) {
    forall denom :: Balance(b.app, su.self, denom)
                 >= InFlight(su, b.router.events, Outstanding(su.sha, b.router.events), denom)
  }

  ghost predicate BridgeInv(su: Setup, b: Bridge) {
    && Inv(su.sha, b.router)
    && PORT in b.router.port && b.router.port[PORT] == su.self
    && AllWellSent(su, b.router)
    && Backed(su, b)
  }

  lemma {:induction false} InFlightMonotone(su: Setup, events: seq<Event>, live: set<SeqKey>, live': set<SeqKey>, denom: Bytes)
    requires forall p :: SendPacket(p) in events ==> WellSent(su, p)
    requires live <= live'
    ensures InFlight(su, events, live, denom) <= InFlight(su, events, live', denom)
  {
    if |events| > 0 {
      InFlightMonotone(su, events[..|events| - 1], live, live', denom);
      var e := events[|events| - 1];
      if e.SendPacket? {
        assert WellSent(su, e.packet);
      }
    }
  }

  lemma LiveIsOutstanding(sha: Hash, st: State)
    requires Inv(sha, st)
    ensures st.commitments.Keys <= Outstanding(sha, st.events)
  {
    forall key | key in st.commitments ensures key in Outstanding(sha, st.events) {
      assert KeyInv(sha, st, key);
      IsOutstanding(sha, st.events, key);
    }
  }

  lemma BackedCovers(su: Setup, b: Bridge)
    requires BridgeInv(su, b)
    ensures Covered(su, b)
  {
    LiveIsOutstanding(su.sha, b.router);
    forall denom
      ensures InFlight(su, b.router.events, b.router.commitments.Keys, denom)
           <= InFlight(su, b.router.events, Outstanding(su.sha, b.router.events), denom)
    {
      InFlightMonotone(su, b.router.events, b.router.commitments.Keys, Outstanding(su.sha, b.router.events), denom);
    }
  }

  lemma {:induction false} InFlightNonNegative(su: Setup, events: seq<Event>, live: set<SeqKey>, denom: Bytes)
    requires forall p :: SendPacket(p) in events ==> WellSent(su, p)
    ensures InFlight(su, events, live, denom) >= 0
  {
    if |events| > 0 {
      InFlightNonNegative(su, events[..|events| - 1], live, denom);
      var e := events[|events| - 1];
      if e.SendPacket? {
        assert WellSent(su, e.packet);
      }
    }
  }

  // ---------------------------------------------------------------- sending

  lemma EscrowedBalances(su: Setup, t: App, env: Env, o: Order)
    requires o.sender != su.self && Escrowed(t, su.self, env, o).Ok?
    ensures o.amount > 0
    ensures forall denom :: Balance(Escrowed(t, su.self, env, o).value, su.self, denom)
                         == Balance(t, su.self, denom) + (if denom == o.denom then o.amount else 0)
  {
  }

  /** A transfer order escrows exactly what its packet carries. */
  lemma TransferKeeps(su: Setup, b: Bridge, env: Env, o: Order)
    requires BridgeInv(su, b) && Inverts(su.codec) && o.sender != su.self
    requires ExecTransfer(su, b, env, o).Ok?
    ensures BridgeInv(su, ExecTransfer(su, b, env, o).value)
  {
    var b' := ExecTransfer(su, b, env, o).value;
    var payload := PayloadFor(su.codec, o).value;
    var env' := env.(auth := {su.self});
    EscrowedBalances(su, b.app, env, o);
    OrderIsRefundable(su, o);
    SendSends(su.sha, b.router, env', o.client, o.timeout, [payload]);
    SendKeeps(su.sha, b.router, env', o.client, o.timeout, [payload]);
    var p := Packet(NextSeq(b.router, o.client) + 1, o.client, b.router.counterparty[o.client].clientId, o.timeout, [payload]);
    SendingKeepsBridge(su, b, p, b');
  }

  lemma SendingKeepsBridge(su: Setup, b: Bridge, p: Packet, b': Bridge)
    requires BridgeInv(su, b) && Sending(su.sha, b.router, p, b'.router) && Inv(su.sha, b'.router)
    requires |p.payloads| == 1 && p.payloads[0].sourcePort == PORT && Refundable(su, p.payloads[0])
    requires var d := su.codec.decode(p.payloads[0].value).value;
             forall denom :: Balance(b'.app, su.self, denom)
                          == Balance(b.app, su.self, denom) + (if denom == d.denom then d.amount else 0)
    ensures BridgeInv(su, b')
  {
    SendingCovers(su, b, p, b');
  }

  lemma OrderIsRefundable(su: Setup, o: Order)
    requires Inverts(su.codec) && o.sender != su.self && o.amount > 0 && PayloadFor(su.codec, o).Some?
    ensures var payload := PayloadFor(su.codec, o).value;
            && payload.sourcePort == PORT && Refundable(su, payload)
            && su.codec.decode(payload.value).value.denom == o.denom
            && su.codec.decode(payload.value).value.amount == o.amount
  {
    AddressRoundTrip(su.codec, o.sender);
  }

  lemma SendingCovers(su: Setup, b: Bridge, p: Packet, b': Bridge)
    requires BridgeInv(su, b) && Sending(su.sha, b.router, p, b'.router)
    requires |p.payloads| == 1 && p.payloads[0].sourcePort == PORT && Refundable(su, p.payloads[0])
    requires var d := su.codec.decode(p.payloads[0].value).value;
             forall denom :: Balance(b'.app, su.self, denom)
                          == Balance(b.app, su.self, denom) + (if denom == d.denom then d.amount else 0)
    ensures Backed(su, b')
  {
    var key := (p.sourceClient, p.sequence);
    var live, live' := Outstanding(su.sha, b.router.events), Outstanding(su.sha, b'.router.events);
    assert KeyInv(su.sha, b.router, key);
    OutstandingAfterSend(su.sha, b.router.events, p);
    forall denom
      ensures Balance(b'.app, su.self, denom) >= InFlight(su, b'.router.events, live', denom)
    {
      InFlightAppend(su, b.router.events, SendPacket(p), live', denom);
      InFlightIgnores(su, b.router.events, live, live', key, denom);
    }
  }

  // ---------------------------------------------------------------- settling

  /** Callbacks for other ports' payloads do not touch the application. */
  lemma {:induction false} ForeignSettlement(su: Setup, t: App, calls: seq<Call>)
    requires forall i :: 0 <= i < |calls| ==> !calls[i].OnRecv? && calls[i].payload.sourcePort != PORT
    requires RunCalls(su, t, calls).Ok?
    ensures RunCalls(su, t, calls).value == t
    decreases |calls|
  {
    if |calls| > 0 {
      ForeignSettlement(su, t, calls[1..]);
    }
  }

  /** The callbacks a settlement event stands for. */
  ghost predicate CallsMatch(sha: Hash, e: Event, calls: seq<Call>) {
    forall i :: 0 <= i < |calls| ==>
      if e.AckPacket? then calls[i].OnAck? && calls[i].ack == AckFor(sha, e.acks, i) else calls[i].OnTimeout?
  }

  /** Settling a transfer refunds it in full or leaves the escrow alone, as its event says. */
  lemma TransferSettlement(su: Setup, t: App, e: Event, c: Call)
    requires !c.OnRecv? && c.app == su.self && c.payload.sourcePort == PORT && Refundable(su, c.payload)
    requires (e.AckPacket? && CallsMatch(su.sha, e, [c])) || (e.TimeoutPacket? && c.OnTimeout?)
    requires OneCall(su, t, c).Ok?
    ensures var d := su.codec.decode(c.payload.value).value;
            var t' := OneCall(su, t, c).value;
            forall denom :: Balance(t', su.self, denom)
              == Balance(t, su.self, denom) - (if denom == d.denom && Refunding(su.sha, e) then d.amount else 0)
  {
    assert [c][0] == c;
  }

  lemma SettlementCovers(su: Setup, b: Bridge, p: Packet, e: Event, calls: seq<Call>, b': Bridge)
    requires BridgeInv(su, b) && IsSent(b.router, p)
    requires Settlement(su.sha, b.router, p, e, calls, b'.router) && CallsMatch(su.sha, e, calls)
    requires RunCalls(su, b.app, calls) == Ok(b'.app)
    ensures Backed(su, b')
  {
    assert KeyInv(su.sha, b.router, (p.sourceClient, p.sequence));
    SettlementBalances(su, b, p, e, calls, b');
    forall denom ensures Balance(b'.app, su.self, denom)
                      >= InFlight(su, b'.router.events, Outstanding(su.sha, b'.router.events), denom) {
      OutstandingPaidOut(su, b.router.events, e, p, denom);
    }
  }

  /** What is outstanding shrinks by what a refunding settlement pays out. */
  lemma OutstandingPaidOut(su: Setup, events: seq<Event>, e: Event, p: Packet, denom: Bytes)
    requires KeyOf(e, Settled) == Some((p.sourceClient, p.sequence))
    requires Count(events, Sent, (p.sourceClient, p.sequence)) == 1 && Count(events, Settled, (p.sourceClient, p.sequence)) == 0
    requires Last(events, Sent, (p.sourceClient, p.sequence)) == Some(SendPacket(p))
    ensures InFlight(su, events + [e], Outstanding(su.sha, events + [e]), denom)
         == InFlight(su, events, Outstanding(su.sha, events), denom) - (if Refunding(su.sha, e) then Carried(su, p, denom) else 0)
  {
    var key := (p.sourceClient, p.sequence);
    var live, live' := Outstanding(su.sha, events), Outstanding(su.sha, events + [e]);
    OutstandingAfterSettlement(su.sha, events, e, key);
    InFlightRemove(su, events, live, key, denom);
    InFlightAppend(su, events, e, live', denom);
    if !Refunding(su.sha, e) {
      assert live' == live;
    }
  }

  /** A refunding settlement pays out at most what the packet carries, another one nothing. */
  lemma SettlementBalances(su: Setup, b: Bridge, p: Packet, e: Event, calls: seq<Call>, b': Bridge)
    requires AllWellSent(su, b.router) && PORT in b.router.port && b.router.port[PORT] == su.self && IsSent(b.router, p)
    requires Settlement(su.sha, b.router, p, e, calls, b'.router) && CallsMatch(su.sha, e, calls)
    requires RunCalls(su, b.app, calls) == Ok(b'.app)
    ensures forall denom ::
              Balance(b'.app, su.self, denom)
              == Balance(b.app, su.self, denom) - (if Refunding(su.sha, e) then Carried(su, p, denom) else 0)
  {
    assert WellSent(su, p);
    if |p.payloads| == 1 && p.payloads[0].sourcePort == PORT {
      assert calls == [calls[0]] && calls[1..] == [];
      TransferSettlement(su, b.app, e, calls[0]);
    } else {
      ForeignSettlement(su, b.app, calls);
    }
  }

  lemma SettlementKeeps(su: Setup, b: Bridge, p: Packet, e: Event, calls: seq<Call>, b': Bridge)
    requires BridgeInv(su, b) && IsSent(b.router, p)
    requires Settlement(su.sha, b.router, p, e, calls, b'.router) && CallsMatch(su.sha, e, calls)
    requires RunCalls(su, b.app, calls) == Ok(b'.app)
    ensures BridgeInv(su, b')
  {
    SettlementCovers(su, b, p, e, calls, b');
    SettleKeeps(su.sha, b.router, p, e, calls, b'.router);
  }

  // ---------------------------------------------------------------- receiving

  /** Non-negative inbound credits never lower the escrow. */
  lemma {:induction false} InboundCredits(su: Setup, t: App, calls: seq<Call>, denom: Bytes)
    requires forall i :: 0 <= i < |calls| ==> calls[i].OnRecv? && InboundAmount(su, calls[i].payload) >= 0
    requires RunCalls(su, t, calls).Ok?
    ensures Balance(RunCalls(su, t, calls).value, su.self, denom) >= Balance(t, su.self, denom)
    decreases |calls|
  {
    if |calls| > 0 {
      InboundCredits(su, OneCall(su, t, calls[0]).value, calls[1..], denom);
    }
  }

  lemma ReceptionCovers(su: Setup, b: Bridge, p: Packet, calls: seq<Call>, acks: seq<Bytes>, b': Bridge)
    requires BridgeInv(su, b) && Reception(su.sha, b.router, p, calls, acks, b'.router)
    requires forall i :: 0 <= i < |p.payloads| ==> InboundAmount(su, p.payloads[i]) >= 0
    requires RunCalls(su, b.app, calls) == Ok(b'.app)
    ensures BridgeInv(su, b')
  {
    ReceptionKeeps(su.sha, b.router, p, calls, acks, b'.router);
    var e, f := RecvPacket(p), WriteAck(p.destClient, p.sequence, acks);
    var live := Outstanding(su.sha, b.router.events);
    assert b'.router.events == b.router.events + [e] + [f];
    OutstandingUntouched(su.sha, b.router.events, e);
    OutstandingUntouched(su.sha, b.router.events + [e], f);
    forall denom ensures Balance(b'.app, su.self, denom) >= InFlight(su, b'.router.events, live, denom) {
      InboundCredits(su, b.app, calls, denom);
      InFlightAppend(su, b.router.events, e, live, denom);
      InFlightAppend(su, b.router.events + [e], f, live, denom);
    }
  }

  // ---------------------------------------------------------------- other sends and registrations

  /** A send that the application did not authorise cannot use its port. */
  lemma ForeignSendAvoidsPort(su: Setup, b: Bridge, env: Env, client: Bytes, timeout: U64, payloads: seq<Payload>)
    requires PORT in b.router.port && b.router.port[PORT] == su.self && su.self !in env.auth
    requires Send(su.sha, b.router, env, client, timeout, payloads).Ok?
    ensures forall i :: 0 <= i < |payloads| ==> payloads[i].sourcePort != PORT
  {
    forall i | 0 <= i < |payloads| ensures payloads[i].sourcePort != PORT {
      SendAuthorised(su.sha, b.router, env, client, timeout, payloads, payloads[i]);
    }
  }

  lemma ForeignSending(su: Setup, b: Bridge, env: Env, client: Bytes, timeout: U64, payloads: seq<Payload>, st: State) returns (p: Packet)
    requires PORT in b.router.port && b.router.port[PORT] == su.self && su.self !in env.auth
    requires Send(su.sha, b.router, env, client, timeout, payloads) == Ok(st)
    ensures Sending(su.sha, b.router, p, st)
    ensures forall i :: 0 <= i < |p.payloads| ==> p.payloads[i].sourcePort != PORT
  {
    SendSends(su.sha, b.router, env, client, timeout, payloads);
    ForeignSendAvoidsPort(su, b, env, client, timeout, payloads);
    p := Packet(NextSeq(b.router, client) + 1, client, b.router.counterparty[client].clientId, timeout, payloads);
  }

  lemma ForeignSendKeeps(su: Setup, b: Bridge, env: Env, client: Bytes, timeout: U64, payloads: seq<Payload>, b': Bridge)
    requires BridgeInv(su, b) && su.self !in env.auth
    requires Send(su.sha, b.router, env, client, timeout, payloads) == Ok(b'.router) && b'.app == b.app
    ensures BridgeInv(su, b')
  {
    var p := ForeignSending(su, b, env, client, timeout, payloads, b'.router);
    SendingKeeps(su.sha, b.router, p, b'.router);
    ForeignSendCovers(su, b, p, b');
  }

  lemma ForeignSendCovers(su: Setup, b: Bridge, p: Packet, b': Bridge)
    requires BridgeInv(su, b) && Sending(su.sha, b.router, p, b'.router) && Inv(su.sha, b'.router)
    requires forall i :: 0 <= i < |p.payloads| ==> p.payloads[i].sourcePort != PORT
    requires b'.app == b.app
    ensures BridgeInv(su, b')
  {
    var key := (p.sourceClient, p.sequence);
    var live, live' := Outstanding(su.sha, b.router.events), Outstanding(su.sha, b'.router.events);
    assert KeyInv(su.sha, b.router, key);
    OutstandingAfterSend(su.sha, b.router.events, p);
    forall denom ensures Balance(b'.app, su.self, denom) >= InFlight(su, b'.router.events, live', denom) {
      InFlightAppend(su, b.router.events, SendPacket(p), live', denom);
      InFlightIgnores(su, b.router.events, live, live', key, denom);
    }
  }
}
