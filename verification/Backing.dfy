/** No double spending: what one chain credits, the other keeps in escrow. */
module Backing {
  import opened Prelude
  import opened Commitments
  import opened Router
  import opened RouterRuns
  import opened TwoChains
  import opened PacketSafety
  import opened Transfer
  import opened Escrow
  import opened EscrowRuns
  import opened Credits
  import opened TwoBridges

  // ---------------------------------------------------------------- delivered packets

  function SourceKey(q: Packet): SeqKey {
    (q.sourceClient, q.sequence)
  }

  /** The clients that are honest, on either end. */
  function LinkOf(source: Chain, dest: Chain): Link {
    Link(source.honest, dest.honest)
  }

  /** The packet travels over clients that are honest on both ends. */
  predicate Delivered(source: Chain, dest: Chain, q: Packet) {
    Over(LinkOf(source, dest), q.sourceClient, q.destClient)
  }

  /** Some payload goes from the transfer port to the transfer port. */
  predicate CarriesTransfer(q: Packet) {
    exists i :: 0 <= i < |q.payloads| && q.payloads[i].sourcePort == PORT && q.payloads[i].destPort == PORT
  }

  /** What stands behind a failure: a second packet, or a second list of acknowledgements, under the
      commitment of a delivered packet, with the hash collision computed from the two. */
  ghost predicate Collides(sha: Hash, source: Chain, dest: Chain, q: Packet) {
    || PacketCollides(sha, Last(source.router.events, Sent, SourceKey(q)), q)
    || PacketCollides(sha, Last(source.router.events, Settled, SourceKey(q)), q)
    || AcksCollide(sha, Last(source.router.events, Settled, SourceKey(q)),
                   Last(dest.router.events, Written, (q.destClient, q.sequence)))
  }

  ghost predicate PacketCollides(sha: Hash, e: Option<Event>, q: Packet) {
    && e.Some? && !e.value.WriteAck? && !SameCommitted(e.value.packet, q)
    && CommitPacket(sha, e.value.packet) == CommitPacket(sha, q)
    && Breaks(sha, PacketEvidence(sha, e.value.packet, q))
  }

  ghost predicate AcksCollide(sha: Hash, settled: Option<Event>, written: Option<Event>) {
    && settled.Some? && settled.value.AckPacket? && written.Some? && written.value.WriteAck?
    && settled.value.acks != written.value.acks
    && CommitAck(sha, settled.value.acks) == CommitAck(sha, written.value.acks)
    && Breaks(sha, AckEvidence(sha, settled.value.acks, written.value.acks))
  }

  // ---------------------------------------------------------------- delivered, so not refunded

  lemma DeliveredWasSent(sha: Hash, source: Chain, dest: Chain, q: Packet)
    requires SideInv(sha, source, dest) && SideInv(sha, dest, source)
    requires RecvPacket(q) in dest.router.events && Delivered(source, dest, q)
    ensures Count(source.router.events, Sent, SourceKey(q)) == 1
    ensures CommitPacket(sha, SentPacket(source, q.sourceClient, q.sequence)) == CommitPacket(sha, q)
    ensures Last(source.router.events, Sent, SourceKey(q)) == Some(SendPacket(q)) || Collides(sha, source, dest, q)
  {
    assert Justified(sha, dest.honest, RecvPacket(q), source.blocks);
    CommittedWasSent(sha, source, dest.prefix, q);
    SentPacketFields(source, q.sourceClient, q.sequence);
    var p := SentPacket(source, q.sourceClient, q.sequence);
    if !SameCommitted(p, q) {
      assert Breaks(sha, PacketEvidence(sha, p, q));
    }
  }

  /** The destination acknowledged the delivered transfer with success. */
  lemma DeliveredWithSuccess(sha: Hash, su: Setup, dest: Chain, q: Packet)
    requires Inv(sha, dest.router) && RepliesSucceed(su, dest.router.calls)
    requires PORT in dest.router.port && dest.router.port[PORT] == su.self
    requires RecvPacket(q) in dest.router.events && |q.payloads| == 1 && q.payloads[0].destPort == PORT
    ensures Count(dest.router.events, Written, (q.destClient, q.sequence)) == 1
    ensures WrittenAcks(dest, q.destClient, q.sequence) == [SUCCESS_ACK]
  {
    ReceivedHasReceipt(sha, dest.router, q);
    assert KeyInv(sha, dest.router, (q.destClient, q.sequence));
    var acks := WrittenAcks(dest, q.destClient, q.sequence);
    assert ReplyRecorded(dest.router.calls, dest.router.port, q, 0, acks[0]);
  }

  /** A delivered transfer is never refunded by its sender's chain, by timeout or by a failed
      acknowledgement, whatever any relayer submits. */
  lemma DeliveredNeverRefunded(sha: Hash, su: Setup, source: Chain, dest: Chain, q: Packet)
    requires SideInv(sha, source, dest) && SideInv(sha, dest, source)
    requires RepliesSucceed(su, dest.router.calls) && PORT in dest.router.port && dest.router.port[PORT] == su.self
    requires RecvPacket(q) in dest.router.events && Delivered(source, dest, q)
    requires |q.payloads| == 1 && q.payloads[0].destPort == PORT
    ensures !WasRefunded(sha, source.router.events, SourceKey(q)) || Collides(sha, source, dest, q)
  {
    if WasRefunded(sha, source.router.events, SourceKey(q)) {
      var e := Last(source.router.events, Settled, SourceKey(q)).value;
      var p := e.packet;
      SettledAsDelivered(sha, source, dest, q, e);
      if p == q {
        RefundedThoughDelivered(sha, su, source, dest, q, e);
      }
    }
  }

  lemma SettledAsDelivered(sha: Hash, source: Chain, dest: Chain, q: Packet, e: Event)
    requires SideInv(sha, source, dest) && SideInv(sha, dest, source)
    requires RecvPacket(q) in dest.router.events && Delivered(source, dest, q)
    requires e in source.router.events && KeyOf(e, Settled) == Some(SourceKey(q))
    ensures e.packet == q || PacketCollides(sha, Some(e), q)
  {
    DeliveredWasSent(sha, source, dest, q);
    SettledWasSent(sha, source, dest.prefix, e);
    if !SameCommitted(e.packet, q) {
      assert Breaks(sha, PacketEvidence(sha, e.packet, q));
    }
  }

  lemma RefundedThoughDelivered(sha: Hash, su: Setup, source: Chain, dest: Chain, q: Packet, e: Event)
    requires SideInv(sha, source, dest) && SideInv(sha, dest, source)
    requires RepliesSucceed(su, dest.router.calls) && PORT in dest.router.port && dest.router.port[PORT] == su.self
    requires RecvPacket(q) in dest.router.events && Delivered(source, dest, q)
    requires |q.payloads| == 1 && q.payloads[0].destPort == PORT
    requires e in source.router.events && (e.AckPacket? || e.TimeoutPacket?) && e.packet == q && Refunding(sha, e)
    ensures AcksCollide(sha, Some(e), Last(dest.router.events, Written, (q.destClient, q.sequence)))
  {
    if e.TimeoutPacket? {
      assert e == TimeoutPacket(q);
      LateNeverReceived(sha, source, dest, q);
    } else {
      assert e == AckPacket(q, e.acks);
      AckedMatchesReceived(sha, source, dest, q, e.acks);
      DeliveredWithSuccess(sha, su, dest, q);
      var written := WrittenAcks(dest, q.destClient, q.sequence);
      assert Breaks(sha, AckEvidence(sha, e.acks, written));
    }
  }

  // ---------------------------------------------------------------- a credited transfer is outstanding

  /** The packet is the one its chain sent under its key, a single transfer that was not refunded. */
  ghost predicate Genuine(su: Setup, source: Chain, q: Packet) {
    && Last(source.router.events, Sent, SourceKey(q)) == Some(SendPacket(q))
    && Count(source.router.events, Sent, SourceKey(q)) == 1
    && |q.payloads| == 1 && q.payloads[0].sourcePort == PORT && q.payloads[0].destPort == PORT
    && SourceKey(q) in Outstanding(su.sha, source.router.events)
  }

  lemma TransferIsGenuine(su: Setup, su': Setup, source: Chain, dest: Chain, q: Packet)
    requires SideInv(su.sha, source, dest) && SideInv(su.sha, dest, source) && AllWellSent(su, source.router)
    requires RepliesSucceed(su', dest.router.calls) && PORT in dest.router.port && dest.router.port[PORT] == su'.self
    requires RecvPacket(q) in dest.router.events && Delivered(source, dest, q) && CarriesTransfer(q)
    ensures Genuine(su, source, q) || Collides(su.sha, source, dest, q)
  {
    DeliveredWasSent(su.sha, source, dest, q);
    if Last(source.router.events, Sent, SourceKey(q)) == Some(SendPacket(q)) {
      assert WellSent(su, q);
      DeliveredNeverRefunded(su.sha, su', source, dest, q);
      IsOutstanding(su.sha, source.router.events, SourceKey(q));
    }
  }

  // ---------------------------------------------------------------- summing up

  /** The transfers of a log, by the key they were sent under. */
  function DeliveredKeys(source: Chain, dest: Chain, events: seq<Event>): set<SeqKey> {
    set e | e in events && e.RecvPacket? && Delivered(source, dest, e.packet) && CarriesTransfer(e.packet) :: SourceKey(e.packet)
  }

  ghost predicate AllGenuine(su: Setup, source: Chain, dest: Chain, events: seq<Event>) {
    forall q :: RecvPacket(q) in events && Delivered(source, dest, q) && CarriesTransfer(q) ==> Genuine(su, source, q)
  }

  lemma {:induction false} NoTransferNoCredit(su: Setup, ps: seq<Payload>, denom: Bytes)
    requires forall i :: 0 <= i < |ps| ==> ps[i].sourcePort != PORT || ps[i].destPort != PORT
    ensures PayloadsCredit(su, ps, Own, denom) == 0
    decreases |ps|
  {
    if |ps| > 0 {
      NoTransferNoCredit(su, ps[1..], denom);
    }
  }

  lemma SingleTransferCredit(su: Setup, q: Packet, denom: Bytes)
    requires |q.payloads| == 1 && q.payloads[0].sourcePort == PORT && q.payloads[0].destPort == PORT
    ensures PayloadsCredit(su, q.payloads, Own, denom) == Carried(su, q, denom)
  {
    assert q.payloads[1..] == [];
  }

  /** The transfers credited sum to the amounts of the packets sent for them, each counted once. */
  lemma {:induction false} DeliveriesAreSends(su: Setup, source: Chain, dest: Chain, events: seq<Event>, denom: Bytes)
    requires AllGenuine(su, source, dest, events)
    requires forall k: SeqKey :: Count(events, Received, k) <= 1
    ensures TotalCredit(su, LinkOf(source, dest), events, Own, denom)
         == InFlight(su, source.router.events, DeliveredKeys(source, dest, events), denom)
  {
    if |events| == 0 {
      NoKeys(su, source.router.events, denom);
      assert DeliveredKeys(source, dest, events) == {};
    } else {
      var front, e := events[..|events| - 1], events[|events| - 1];
      assert events == front + [e];
      forall k: SeqKey ensures Count(front, Received, k) <= 1 {
        assert Count(events, Received, k) <= 1;
      }
      DeliveriesAreSends(su, source, dest, front, denom);
      OneMoreDelivery(su, source, dest, front, e, denom);
    }
  }

  lemma OneMoreDelivery(su: Setup, source: Chain, dest: Chain, front: seq<Event>, e: Event, denom: Bytes)
    requires AllGenuine(su, source, dest, front + [e])
    requires forall k: SeqKey :: Count(front + [e], Received, k) <= 1
    requires TotalCredit(su, LinkOf(source, dest), front, Own, denom)
          == InFlight(su, source.router.events, DeliveredKeys(source, dest, front), denom)
    ensures TotalCredit(su, LinkOf(source, dest), front + [e], Own, denom)
         == InFlight(su, source.router.events, DeliveredKeys(source, dest, front + [e]), denom)
  {
    var events := front + [e];
    CreditAppend(su, LinkOf(source, dest), front, e, Own, denom);
    var keys, keys' := DeliveredKeys(source, dest, front), DeliveredKeys(source, dest, events);
    if e.RecvPacket? && Delivered(source, dest, e.packet) && CarriesTransfer(e.packet) {
      var k := SourceKey(e.packet);
      assert RecvPacket(e.packet) in events;
      FreshDelivery(su, source, dest, front, e);
      assert keys' == keys + {k} && keys' - {k} == keys;
      InFlightRemove(su, source.router.events, keys', k, denom);
      SingleTransferCredit(su, e.packet, denom);
    } else {
      assert keys' == keys;
      if e.RecvPacket? && Delivered(source, dest, e.packet) {
        NoTransferNoCredit(su, e.packet.payloads, denom);
      }
    }
  }

  lemma {:induction false} NoKeys(su: Setup, events: seq<Event>, denom: Bytes)
    ensures InFlight(su, events, {}, denom) == 0
  {
    if |events| > 0 {
      NoKeys(su, events[..|events| - 1], denom);
    }
  }

  /** No sent packet is delivered twice. */
  lemma FreshDelivery(su: Setup, source: Chain, dest: Chain, front: seq<Event>, e: Event)
    requires e.RecvPacket? && Delivered(source, dest, e.packet) && CarriesTransfer(e.packet)
    requires AllGenuine(su, source, dest, front + [e])
    requires forall k: SeqKey :: Count(front + [e], Received, k) <= 1
    ensures SourceKey(e.packet) !in DeliveredKeys(source, dest, front)
  {
    if SourceKey(e.packet) in DeliveredKeys(source, dest, front) {
      var f :| f in front && f.RecvPacket? && Delivered(source, dest, f.packet) && CarriesTransfer(f.packet)
               && SourceKey(f.packet) == SourceKey(e.packet);
      assert f in front + [e] && e in front + [e];
      assert RecvPacket(f.packet) == f && RecvPacket(e.packet) == e;
      var home := (e.packet.destClient, e.packet.sequence);
      OccursIsCounted(front, f, Received, home);
      Appended(front, e, Received, home);
    }
  }

  ghost predicate SomeCollides(sha: Hash, source: Chain, dest: Chain) {
    exists q :: RecvPacket(q) in dest.router.events && Delivered(source, dest, q) && Collides(sha, source, dest, q)
  }

  lemma GenuineOrBroken(su: Setup, su': Setup, source: Chain, dest: Chain)
    requires SideInv(su.sha, source, dest) && SideInv(su.sha, dest, source) && AllWellSent(su, source.router)
    requires RepliesSucceed(su', dest.router.calls) && PORT in dest.router.port && dest.router.port[PORT] == su'.self
    ensures AllGenuine(su, source, dest, dest.router.events) || SomeCollides(su.sha, source, dest)
  {
    if !SomeCollides(su.sha, source, dest) {
      forall q | RecvPacket(q) in dest.router.events && Delivered(source, dest, q) && CarriesTransfer(q)
        ensures Genuine(su, source, q)
      {
        TransferIsGenuine(su, su', source, dest, q);
      }
    }
  }

  lemma DeliveredIsBacked(su: Setup, app: App, source: Chain, dest: Chain, denom: Bytes)
    requires BridgeInv(su, Bridge(app, source.router)) && Inv(su.sha, dest.router)
    requires AllGenuine(su, source, dest, dest.router.events)
    ensures TotalCredit(su, LinkOf(source, dest), dest.router.events, Own, denom) <= Balance(app, su.self, denom)
  {
    var events := source.router.events;
    var keys := DeliveredKeys(source, dest, dest.router.events);
    forall k: SeqKey ensures Count(dest.router.events, Received, k) <= 1 {
      assert KeyInv(su.sha, dest.router, k);
    }
    DeliveriesAreSends(su, source, dest, dest.router.events, denom);
    forall k | k in keys ensures k in Outstanding(su.sha, events) {
      var e :| e in dest.router.events && e.RecvPacket? && Delivered(source, dest, e.packet) && CarriesTransfer(e.packet)
               && SourceKey(e.packet) == k;
      assert RecvPacket(e.packet) in dest.router.events;
    }
    InFlightMonotone(su, events, keys, Outstanding(su.sha, events), denom);
  }

  // ---------------------------------------------------------------- the tally over runs

  ghost predicate SideTallies(pl: Plan, link: Link, d: Duo, side: Side, denom: Bytes) {
    PortHeld(pl.At(side), d.world.At(side).router) && Tallies(pl.At(side), link, d.world.At(side).router, denom)
  }

  lemma StepTallies(pl: Plan, link: Link, d: Duo, s: DuoStep, side: Side, denom: Bytes)
    requires SideTallies(pl, link, d, side, denom)
    ensures SideTallies(pl, link, NextDuo(pl, d, s), side, denom)
  {
    if s.Act? && s.side == side {
      var su, b := pl.At(side), d.BridgeAt(side);
      if ExecOp(su, b, s.tx.env, s.tx.op).Ok? {
        ExecOpKeepsPort(su, b, s.tx.env, s.tx.op);
        ExecOpTallies(su, link, b, s.tx.env, s.tx.op, denom);
      }
    }
  }

  lemma {:induction false} RunTallies(pl: Plan, link: Link, d: Duo, steps: seq<DuoStep>, side: Side, denom: Bytes)
    requires SideTallies(pl, link, d, side, denom)
    ensures SideTallies(pl, link, RunDuo(pl, d, steps), side, denom)
  {
    if |steps| > 0 {
      RunTallies(pl, link, d, steps[..|steps| - 1], side, denom);
      StepTallies(pl, link, RunDuo(pl, d, steps[..|steps| - 1]), steps[|steps| - 1], side, denom);
    }
  }

  lemma StartTallies(pl: Plan, link: Link, d: Duo, side: Side, denom: Bytes)
    requires DuoStart(pl, d)
    ensures SideTallies(pl, link, d, side, denom)
  {
    assert PortOpened(pl.At(side), d.BridgeAt(side));
    OpenedIsOk(pl.At(side), d.BridgeAt(side));
  }

  /** The two applications read payloads alike. */
  lemma {:induction false} SameCodecSameCredit(su: Setup, su': Setup, link: Link, events: seq<Event>, origin: Origin, denom: Bytes)
    requires su.codec == su'.codec
    ensures TotalCredit(su, link, events, origin, denom) == TotalCredit(su', link, events, origin, denom)
  {
    if |events| > 0 {
      SameCodecSameCredit(su, su', link, events[..|events| - 1], origin, denom);
      var e := events[|events| - 1];
      if e.RecvPacket? {
        SameCodecSamePayloads(su, su', e.packet.payloads, origin, denom);
      }
    }
  }

  lemma {:induction false} SameCodecSamePayloads(su: Setup, su': Setup, ps: seq<Payload>, origin: Origin, denom: Bytes)
    requires su.codec == su'.codec
    ensures PayloadsCredit(su, ps, origin, denom) == PayloadsCredit(su', ps, origin, denom)
    decreases |ps|
  {
    if |ps| > 0 {
      SameCodecSamePayloads(su, su', ps[1..], origin, denom);
    }
  }

  // ---------------------------------------------------------------- over every run

  /** Over every legal run of two chains from their deployment, and in both directions: what one chain's
      application really credited, over honest clients and for payloads of every port, is at most what
      the other chain holds in escrow plus the part that came from other source ports, which its escrow
      does not back; unless the run exhibits a hash collision. */
  lemma CreditsAreBacked(pl: Plan, start: Duo, steps: seq<DuoStep>, side: Side, denom: Bytes)
    requires Compatible(pl) && DuoStart(pl, start) && LegalDuoRun(pl, start, steps)
    ensures var end := RunDuo(pl, start, steps);
            var source, dest := end.world.At(side), end.world.At(Other(side));
            var su, su', link := pl.At(side), pl.At(Other(side)), LinkOf(source, dest);
            && CreditedBy(su', link, dest.router.calls, denom)
               == TotalCredit(su, link, dest.router.events, Own, denom) + TotalCredit(su, link, dest.router.events, Foreign, denom)
            && (|| TotalCredit(su, link, dest.router.events, Own, denom) <= Balance(end.AppAt(side), su.self, denom)
                || SomeCollides(su.sha, source, dest)
                || SomeForgingStep(pl, start, steps))
  {
    DuoStartInv(pl, start);
    RunKeepsDuo(pl, start, steps);
    var end := RunDuo(pl, start, steps);
    var link := LinkOf(end.world.At(side), end.world.At(Other(side)));
    var events := end.world.At(Other(side)).router.events;
    StartTallies(pl, link, start, Other(side), denom);
    RunTallies(pl, link, start, steps, Other(side), denom);
    SameCodecSameCredit(pl.At(side), pl.At(Other(side)), link, events, Own, denom);
    SameCodecSameCredit(pl.At(side), pl.At(Other(side)), link, events, Foreign, denom);
    if DuoInv(pl, end) {
      BackedAt(pl, end, side, denom);
    }
  }

  lemma BackedAt(pl: Plan, d: Duo, side: Side, denom: Bytes)
    requires Compatible(pl) && DuoInv(pl, d)
    ensures var source, dest := d.world.At(side), d.world.At(Other(side));
            var su := pl.At(side);
            || TotalCredit(su, LinkOf(source, dest), dest.router.events, Own, denom) <= Balance(d.AppAt(side), su.self, denom)
            || SomeCollides(su.sha, source, dest)
  {
    var source, dest := d.world.At(side), d.world.At(Other(side));
    var su, su' := pl.At(side), pl.At(Other(side));
    assert BridgeOk(su, d.BridgeAt(side)) && BridgeOk(su', d.BridgeAt(Other(side)));
    GenuineOrBroken(su, su', source, dest);
    if AllGenuine(su, source, dest, dest.router.events) {
      DeliveredIsBacked(su, d.AppAt(side), source, dest, denom);
    }
  }
}
