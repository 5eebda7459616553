/** What the transfer application credits, payload by payload, and where the payloads come from. */
module Credits {
  import opened Prelude
  import opened Commitments
  import opened Router
  import opened RouterRuns
  import opened Settleable
  import opened Transfer
  import opened Escrow
  import opened EscrowRuns

  /** A payload was sent by the transfer application of its chain, or under another port. */
  datatype Origin = Own | Foreign

  predicate From(origin: Origin, payload: Payload) {
    origin == if payload.sourcePort == PORT then Own else Foreign
  }

  function Amount(su: Setup, payload: Payload, denom: Bytes): int {
    match su.codec.decode(payload.value)
    case Some(d) => if d.denom == denom then d.amount else 0
    case None => 0
  }

  /** The sum of `denom` that payloads of one origin bring to the transfer port. */
  function PayloadsCredit(su: Setup, ps: seq<Payload>, origin: Origin, denom: Bytes): int
    decreases |ps|
  {
    if |ps| == 0 then 0
    else (if ps[0].destPort == PORT && From(origin, ps[0]) then Amount(su, ps[0], denom) else 0)
         + PayloadsCredit(su, ps[1..], origin, denom)
  }

  /** The client pairs whose packets count: `senders` on the sending chain, `receivers` on this one. */
  datatype Link = Link(senders: set<Bytes>, receivers: set<Bytes>)

  predicate Over(link: Link, sourceClient: Bytes, destClient: Bytes) {
    sourceClient in link.senders && destClient in link.receivers
  }

  /** The sum of `denom` brought to the transfer port by the packets of an event log. */
  function TotalCredit(su: Setup, link: Link, events: seq<Event>, origin: Origin, denom: Bytes): int {
    if |events| == 0 then 0
    else
      var e := events[|events| - 1];
      TotalCredit(su, link, events[..|events| - 1], origin, denom)
      + (if e.RecvPacket? && Over(link, e.packet.sourceClient, e.packet.destClient)
         then PayloadsCredit(su, e.packet.payloads, origin, denom) else 0)
  }

  /** What the application's own calls credited for those clients. */
  function CreditedBy(su: Setup, link: Link, calls: seq<Call>, denom: Bytes): int
    decreases |calls|
  {
    if |calls| == 0 then 0
    else (if Over(link, calls[0].sourceClient, calls[0].destClient) then Issued(su, calls[0], denom) else 0)
         + CreditedBy(su, link, calls[1..], denom)
  }

  // ---------------------------------------------------------------- logs

  lemma CreditAppend(su: Setup, link: Link, events: seq<Event>, e: Event, origin: Origin, denom: Bytes)
    ensures TotalCredit(su, link, events + [e], origin, denom)
         == TotalCredit(su, link, events, origin, denom)
            + (if e.RecvPacket? && Over(link, e.packet.sourceClient, e.packet.destClient)
               then PayloadsCredit(su, e.packet.payloads, origin, denom) else 0)
  {
    assert (events + [e])[..|events|] == events;
  }

  lemma {:induction false} CreditedAppend(su: Setup, link: Link, calls: seq<Call>, more: seq<Call>, denom: Bytes)
    ensures CreditedBy(su, link, calls + more, denom) == CreditedBy(su, link, calls, denom) + CreditedBy(su, link, more, denom)
    decreases |calls|
  {
    if |calls| == 0 {
      assert calls + more == more;
    } else {
      assert (calls + more)[1..] == calls[1..] + more;
      CreditedAppend(su, link, calls[1..], more, denom);
    }
  }

  lemma {:induction false} SettlementsCreditNothing(su: Setup, link: Link, calls: seq<Call>, denom: Bytes)
    requires forall i :: 0 <= i < |calls| ==> !calls[i].OnRecv?
    ensures CreditedBy(su, link, calls, denom) == 0
    decreases |calls|
  {
    if |calls| > 0 {
      SettlementsCreditNothing(su, link, calls[1..], denom);
    }
  }

  /** The calls of one received packet. */
  ghost predicate DeliveryCalls(port: map<Bytes, Address>, source: Bytes, dest: Bytes, ps: seq<Payload>, calls: seq<Call>) {
    && |calls| == |ps|
    && forall i :: 0 <= i < |calls| ==>
         && calls[i].OnRecv? && calls[i].payload == ps[i] && calls[i].sourceClient == source && calls[i].destClient == dest
         && ps[i].destPort in port && calls[i].app == port[ps[i].destPort]
  }

  /** A packet whose callbacks all return credits the sum of its payloads for the transfer port, whatever
      their source port, and nothing else: the application refuses a call for any other port. */
  lemma {:induction false} DeliveryCredits(su: Setup, link: Link, t: App, port: map<Bytes, Address>, source: Bytes, dest: Bytes,
                                           ps: seq<Payload>, calls: seq<Call>, denom: Bytes)
    requires DeliveryCalls(port, source, dest, ps, calls) && PORT in port && port[PORT] == su.self
    requires RunCalls(su, t, calls).Ok?
    ensures CreditedBy(su, link, calls, denom)
         == if Over(link, source, dest) then PayloadsCredit(su, ps, Own, denom) + PayloadsCredit(su, ps, Foreign, denom) else 0
    decreases |calls|
  {
    if |calls| > 0 {
      DeliveryCredits(su, link, OneCall(su, t, calls[0]).value, port, source, dest, ps[1..], calls[1..], denom);
      assert Issued(su, calls[0], denom) == if ps[0].destPort == PORT then Amount(su, ps[0], denom) else 0;
    }
  }

  // ---------------------------------------------------------------- the invariant

  /** The callbacks made and the packets received tell of the same credits. */
  ghost predicate Tallies(su: Setup, link: Link, st: State, denom: Bytes) {
    CreditedBy(su, link, st.calls, denom)
    == TotalCredit(su, link, st.events, Own, denom) + TotalCredit(su, link, st.events, Foreign, denom)
  }

  ghost predicate PortHeld(su: Setup, st: State) {
    Inv(su.sha, st) && PORT in st.port && st.port[PORT] == su.self
  }

  lemma SendTallies(su: Setup, link: Link, st: State, p: Packet, st': State, denom: Bytes)
    requires Tallies(su, link, st, denom) && Sending(su.sha, st, p, st')
    ensures Tallies(su, link, st', denom)
  {
    CreditAppend(su, link, st.events, SendPacket(p), Own, denom);
    CreditAppend(su, link, st.events, SendPacket(p), Foreign, denom);
  }

  lemma SettlementTallies(su: Setup, link: Link, st: State, p: Packet, e: Event, calls: seq<Call>, st': State, denom: Bytes)
    requires Tallies(su, link, st, denom) && Settlement(su.sha, st, p, e, calls, st')
    ensures Tallies(su, link, st', denom)
  {
    CreditAppend(su, link, st.events, e, Own, denom);
    CreditAppend(su, link, st.events, e, Foreign, denom);
    CreditedAppend(su, link, st.calls, calls, denom);
    SettlementsCreditNothing(su, link, calls, denom);
  }

  lemma ReceptionTallies(su: Setup, link: Link, t: App, st: State, p: Packet, calls: seq<Call>, acks: seq<Bytes>, st': State, denom: Bytes)
    requires Tallies(su, link, st, denom) && PORT in st.port && st.port[PORT] == su.self
    requires Reception(su.sha, st, p, calls, acks, st') && RunCalls(su, t, calls).Ok?
    ensures Tallies(su, link, st', denom)
  {
    ReceptionTotals(su, link, st.events, p, acks, Own, denom);
    ReceptionTotals(su, link, st.events, p, acks, Foreign, denom);
    CreditedAppend(su, link, st.calls, calls, denom);
    DeliveryCredits(su, link, t, st.port, p.sourceClient, p.destClient, p.payloads, calls, denom);
  }

  lemma ReceptionTotals(su: Setup, link: Link, events: seq<Event>, p: Packet, acks: seq<Bytes>, origin: Origin, denom: Bytes)
    ensures TotalCredit(su, link, events + [RecvPacket(p), WriteAck(p.destClient, p.sequence, acks)], origin, denom)
         == TotalCredit(su, link, events, origin, denom)
            + (if Over(link, p.sourceClient, p.destClient) then PayloadsCredit(su, p.payloads, origin, denom) else 0)
  {
    var e, f := RecvPacket(p), WriteAck(p.destClient, p.sequence, acks);
    assert events + [e, f] == (events + [e]) + [f];
    CreditAppend(su, link, events, e, origin, denom);
    CreditAppend(su, link, events + [e], f, origin, denom);
  }

  lemma RouterOpTallies(su: Setup, link: Link, b: Bridge, env: Env, a: Action, b': Bridge, denom: Bytes)
    requires PortHeld(su, b.router) && Tallies(su, link, b.router, denom) && ExecRouter(su, b, env, a) == Ok(b')
    ensures Tallies(su, link, b'.router, denom)
  {
    match a
    case DoSend(client, timeout, payloads) => SendOpTallies(su, link, b.router, env, client, timeout, payloads, b'.router, denom);
    case DoRecv(p, proof, height) => RecvOpTallies(su, link, b, env, p, proof, height, b', denom);
    case DoAcknowledge(p, acks, proof, height) => AckOpTallies(su, link, b, env, p, acks, proof, height, b', denom);
    case DoTimeout(p, proof, height) => TimeoutOpTallies(su, link, b, env, p, proof, height, b', denom);
    case DoWriteAck(client, sequence, acks) => WriteAckRefused(su.sha, b.router, client, sequence, acks);
    case _ => RegistrationIsQuiet(su.sha, b.router, env, a);
  }

  lemma SendOpTallies(su: Setup, link: Link, st: State, env: Env, client: Bytes, timeout: U64, payloads: seq<Payload>, st': State, denom: Bytes)
    requires Tallies(su, link, st, denom) && Send(su.sha, st, env, client, timeout, payloads) == Ok(st')
    ensures Tallies(su, link, st', denom)
  {
    SendSends(su.sha, st, env, client, timeout, payloads);
    SendTallies(su, link, st, Packet(NextSeq(st, client) + 1, client, st.counterparty[client].clientId, timeout, payloads), st', denom);
  }

  lemma RecvOpTallies(su: Setup, link: Link, b: Bridge, env: Env, p: Packet, proof: Bytes, height: U64, b': Bridge, denom: Bytes)
    requires PORT in b.router.port && b.router.port[PORT] == su.self && Tallies(su, link, b.router, denom)
    requires ExecRouter(su, b, env, DoRecv(p, proof, height)) == Ok(b')
    ensures Tallies(su, link, b'.router, denom)
  {
    var calls, acks := RecvAction(su, b, env, p, proof, height, b');
    ReceptionTallies(su, link, b.app, b.router, p, calls, acks, b'.router, denom);
  }

  lemma AckOpTallies(su: Setup, link: Link, b: Bridge, env: Env, p: Packet, acks: seq<Bytes>, proof: Bytes, height: U64, b': Bridge, denom: Bytes)
    requires Tallies(su, link, b.router, denom) && ExecRouter(su, b, env, DoAcknowledge(p, acks, proof, height)) == Ok(b')
    ensures Tallies(su, link, b'.router, denom)
  {
    var calls := AckAction(su, b, env, p, acks, proof, height, b');
    SettlementTallies(su, link, b.router, p, AckPacket(p, acks), calls, b'.router, denom);
  }

  lemma TimeoutOpTallies(su: Setup, link: Link, b: Bridge, env: Env, p: Packet, proof: Bytes, height: U64, b': Bridge, denom: Bytes)
    requires Tallies(su, link, b.router, denom) && ExecRouter(su, b, env, DoTimeout(p, proof, height)) == Ok(b')
    ensures Tallies(su, link, b'.router, denom)
  {
    var calls := TimeoutAction(su, b, env, p, proof, height, b');
    SettlementTallies(su, link, b.router, p, TimeoutPacket(p), calls, b'.router, denom);
  }

  lemma ExecOpKeepsPort(su: Setup, b: Bridge, env: Env, op: Op)
    requires PortHeld(su, b.router) && ExecOp(su, b, env, op).Ok?
    ensures PortHeld(su, ExecOp(su, b, env, op).value.router)
  {
    match op
    case TransferOp(o) =>
      SendKeeps(su.sha, b.router, env.(auth := {su.self}), o.client, o.timeout, [PayloadFor(su.codec, o).value]);
    case RouterOp(a) => ExecKeeps(su.sha, b.router, env, a);
    case _ =>
  }

  /** Every operation keeps the tally. */
  lemma ExecOpTallies(su: Setup, link: Link, b: Bridge, env: Env, op: Op, denom: Bytes)
    requires PortHeld(su, b.router) && Tallies(su, link, b.router, denom) && ExecOp(su, b, env, op).Ok?
    ensures Tallies(su, link, ExecOp(su, b, env, op).value.router, denom)
  {
    var b' := ExecOp(su, b, env, op).value;
    match op
    case TransferOp(o) =>
      SendOpTallies(su, link, b.router, env.(auth := {su.self}), o.client, o.timeout, [PayloadFor(su.codec, o).value], b'.router, denom);
    case RouterOp(a) => RouterOpTallies(su, link, b, env, a, b', denom);
    case _ =>
  }
}
