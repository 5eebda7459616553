/** Safety of the packet lifecycle across two chains, over every legal run. */
module PacketSafety {
  import opened Prelude
  import opened Paths
  import opened Commitments
  import opened Router
  import opened RouterRuns
  import opened TwoChains

  /** A world reached by a legal run from two fresh deployments. */
  ghost predicate Reached(sha: Hash, start: World, steps: seq<WorldStep>, w: World) {
    Start(start) && LegalRun(sha, start, steps) && w == RunWorld(sha, start, steps)
  }

  lemma ReachedInv(sha: Hash, start: World, steps: seq<WorldStep>, w: World, side: Side)
    requires Reached(sha, start, steps, w)
    ensures SideInv(sha, w.At(side), w.At(Other(side))) && SideInv(sha, w.At(Other(side)), w.At(side))
  {
    StartInv(sha, start);
    RunKeepsWorld(sha, start, steps);
  }

  /** The two packets agree, or their commitments yield a hash collision. */
  ghost predicate SameOrBroken(sha: Hash, p: Packet, q: Packet) {
    p == q || (!SameCommitted(p, q) && CommitPacket(sha, p) == CommitPacket(sha, q) && Breaks(sha, PacketEvidence(sha, p, q)))
  }

  ghost predicate SameAcksOrBroken(sha: Hash, xs: seq<Bytes>, ys: seq<Bytes>) {
    xs == ys || (CommitAck(sha, xs) == CommitAck(sha, ys) && Breaks(sha, AckEvidence(sha, xs, ys)))
  }

  // ---------------------------------------------------------------- received or timed out, never both

  /** A packet timed out on the source through an honest client is never received, before or
      after, on the destination. */
  lemma NeverReceivedAndTimedOut(sha: Hash, start: World, steps: seq<WorldStep>, w: World, side: Side, p: Packet)
    requires Reached(sha, start, steps, w)
    requires TimeoutPacket(p) in w.At(side).router.events && p.sourceClient in w.At(side).honest
    ensures RecvPacket(p) !in w.At(Other(side)).router.events
  {
    ReachedInv(sha, start, steps, w, side);
    LateNeverReceived(sha, w.At(side), w.At(Other(side)), p);
  }

  lemma LateNeverReceived(sha: Hash, source: Chain, dest: Chain, p: Packet)
    requires SideInv(sha, source, dest) && SideInv(sha, dest, source)
    requires TimeoutPacket(p) in source.router.events && p.sourceClient in source.honest
    ensures RecvPacket(p) !in dest.router.events
  {
    assert Justified(sha, source.honest, TimeoutPacket(p), dest.blocks);
    var h :| 0 <= h < |dest.blocks| && dest.blocks[h].time > p.timeout
             && (p.destClient, p.sequence) !in dest.blocks[h].state.receipts;
    assert BlockInv(sha, dest.blocks[h], dest);
  }

  // ---------------------------------------------------------------- received packets were sent

  lemma LastStands(sha: Hash, st: State, st': State, role: Role, key: SeqKey)
    requires Evolves(st, st') && Count(st.events, role, key) > 0 && Count(st'.events, role, key) == 1
    ensures Last(st'.events, role, key) == Last(st.events, role, key)
  {
    var e := Last(st.events, role, key).value;
    OccursIsCounted(st'.events, e, role, key);
  }

  /** The packet a chain sent under (client, sequence). */
  function SentPacket(c: Chain, client: Bytes, sequence: U64): Packet
    requires Count(c.router.events, Sent, (client, sequence)) > 0
  {
    Last(c.router.events, Sent, (client, sequence)).value.packet
  }

  lemma CommittedWasSent(sha: Hash, c: Chain, peerPrefix: Bytes, p: Packet)
    requires ChainInv(sha, c, peerPrefix) && WasCommitted(sha, c.blocks, p)
    ensures Count(c.router.events, Sent, (p.sourceClient, p.sequence)) == 1
    ensures CommitPacket(sha, SentPacket(c, p.sourceClient, p.sequence)) == CommitPacket(sha, p)
  {
    var key := (p.sourceClient, p.sequence);
    var h :| 0 <= h < |c.blocks|
             && Holds(c.blocks[h].state, Path(p.sourceClient, PacketCommitment, p.sequence), CommitPacket(sha, p));
    var b := c.blocks[h];
    assert BlockInv(sha, b, c);
    assert KeyInv(sha, b.state, key) && KeyInv(sha, c.router, key);
    LastStands(sha, b.state, c.router, Sent, key);
  }

  lemma SentPacketFields(c: Chain, client: Bytes, sequence: U64)
    requires Count(c.router.events, Sent, (client, sequence)) > 0
    ensures SentPacket(c, client, sequence).sourceClient == client && SentPacket(c, client, sequence).sequence == sequence
    ensures SendPacket(SentPacket(c, client, sequence)) in c.router.events
  {
  }

  lemma SameOrBrokenFor(sha: Hash, p: Packet, q: Packet)
    requires p.sourceClient == q.sourceClient && p.sequence == q.sequence
    requires CommitPacket(sha, p) == CommitPacket(sha, q)
    ensures SameOrBroken(sha, p, q)
  {
    if !SameCommitted(p, q) {
      assert Breaks(sha, PacketEvidence(sha, p, q));
    }
  }

  /** A packet received through an honest client is, in every field, the packet the peer sent
      under that client and sequence; otherwise the two commitments collide. */
  lemma ReceivedWasSent(sha: Hash, start: World, steps: seq<WorldStep>, w: World, side: Side, p: Packet)
    requires Reached(sha, start, steps, w)
    requires RecvPacket(p) in w.At(side).router.events && p.destClient in w.At(side).honest
    ensures var source := w.At(Other(side));
            && Count(source.router.events, Sent, (p.sourceClient, p.sequence)) == 1
            && SameOrBroken(sha, SentPacket(source, p.sourceClient, p.sequence), p)
  {
    ReachedInv(sha, start, steps, w, side);
    var source := w.At(Other(side));
    assert Justified(sha, w.At(side).honest, RecvPacket(p), source.blocks);
    CommittedWasSent(sha, source, w.At(side).prefix, p);
    SentPacketFields(source, p.sourceClient, p.sequence);
    SameOrBrokenFor(sha, SentPacket(source, p.sourceClient, p.sequence), p);
  }

  /** A settled packet is the one sent under its client and sequence, or the commitments collide. */
  lemma SettledWasSent(sha: Hash, c: Chain, peerPrefix: Bytes, e: Event)
    requires ChainInv(sha, c, peerPrefix) && e in c.router.events && (e.AckPacket? || e.TimeoutPacket?)
    ensures var p := e.packet;
            && Count(c.router.events, Sent, (p.sourceClient, p.sequence)) == 1
            && CommitPacket(sha, SentPacket(c, p.sourceClient, p.sequence)) == CommitPacket(sha, p)
            && SameOrBroken(sha, SentPacket(c, p.sourceClient, p.sequence), p)
  {
    var p := e.packet;
    var key := (p.sourceClient, p.sequence);
    assert KeyInv(sha, c.router, key);
    OccursIsCounted(c.router.events, e, Settled, key);
    SentPacketFields(c, p.sourceClient, p.sequence);
    SameOrBrokenFor(sha, SentPacket(c, p.sourceClient, p.sequence), p);
  }

  /** The same exclusion for whatever two packets a relayer presents under one source client,
      destination client and sequence: timing one out and receiving the other breaks the hash. */
  lemma TimedOutAndReceivedCollide(sha: Hash, start: World, steps: seq<WorldStep>, w: World, side: Side, p: Packet, q: Packet)
    requires Reached(sha, start, steps, w)
    requires TimeoutPacket(p) in w.At(side).router.events && p.sourceClient in w.At(side).honest
    requires RecvPacket(q) in w.At(Other(side)).router.events && q.destClient in w.At(Other(side)).honest
    requires (p.sourceClient, p.destClient, p.sequence) == (q.sourceClient, q.destClient, q.sequence)
    ensures p != q && SameOrBroken(sha, p, q)
  {
    ReachedInv(sha, start, steps, w, side);
    NeverReceivedAndTimedOut(sha, start, steps, w, side, p);
    SettledWasSent(sha, w.At(side), w.At(Other(side)).prefix, TimeoutPacket(p));
    assert Justified(sha, w.At(Other(side)).honest, RecvPacket(q), w.At(side).blocks);
    CommittedWasSent(sha, w.At(side), w.At(Other(side)).prefix, q);
    SameOrBrokenFor(sha, p, q);
  }

  // ---------------------------------------------------------------- acknowledgements are the replies

  /** What the destination received and acknowledged under (client, sequence). */
  function ReceivedPacket(c: Chain, client: Bytes, sequence: U64): Packet
    requires Count(c.router.events, Received, (client, sequence)) > 0
  {
    Last(c.router.events, Received, (client, sequence)).value.packet
  }

  function WrittenAcks(c: Chain, client: Bytes, sequence: U64): seq<Bytes>
    requires Count(c.router.events, Written, (client, sequence)) > 0
  {
    Last(c.router.events, Written, (client, sequence)).value.acks
  }

  lemma AckedWasReceived(sha: Hash, c: Chain, peerPrefix: Bytes, p: Packet, acks: seq<Bytes>)
    requires ChainInv(sha, c, peerPrefix) && WasAcked(sha, c.blocks, p, acks)
    ensures var key := (p.destClient, p.sequence);
            && key in c.router.receipts
            && Count(c.router.events, Received, key) == 1 && Count(c.router.events, Written, key) == 1
            && CommitAck(sha, WrittenAcks(c, p.destClient, p.sequence)) == CommitAck(sha, acks)
  {
    var key := (p.destClient, p.sequence);
    var h :| 0 <= h < |c.blocks|
             && Holds(c.blocks[h].state, Path(p.destClient, AckCommitment, p.sequence), CommitAck(sha, acks));
    assert BlockInv(sha, c.blocks[h], c);
    assert KeyInv(sha, c.router, key);
  }

  /** Client `client` of a chain has `peer` as its registered counterparty. */
  predicate Names(c: Chain, client: Bytes, peer: Bytes) {
    client in c.router.counterparty && c.router.counterparty[client].clientId == peer
  }

  /** The reply of the destination application to payload `i` of `q` is the written acknowledgement `i`. */
  ghost predicate WrittenIsReply(dest: Chain, q: Packet, written: seq<Bytes>, i: nat)
    requires i < |q.payloads|
  {
    i < |written| && ReplyRecorded(dest.router.calls, dest.router.port, q, i, written[i])
  }

  /** Every acknowledgement through an honest client of the source: the destination received exactly one
      packet `q` under that client and sequence, from the client it names as counterparty; the
      acknowledgements are those written for `q`, each the reply to its payload, and each was handed to
      the payload of `p` in its place, or the two lists collide. Whether `q` is the acknowledged packet
      `p` is decided by that registration: if the destination client names another client than the
      source client of `p`, then `q` is another packet; if it names it and is honest itself, then `q` is
      `p`, or the two collide. */
  lemma AcknowledgementIsReply(sha: Hash, start: World, steps: seq<WorldStep>, w: World, side: Side, p: Packet, acks: seq<Bytes>)
    requires Reached(sha, start, steps, w)
    requires AckPacket(p, acks) in w.At(side).router.events && p.sourceClient in w.At(side).honest
    ensures var source, dest := w.At(side), w.At(Other(side));
            var key := (p.destClient, p.sequence);
            && Count(dest.router.events, Received, key) == 1 && Count(dest.router.events, Written, key) == 1
            && var q := ReceivedPacket(dest, p.destClient, p.sequence);
               var written := WrittenAcks(dest, p.destClient, p.sequence);
               && q.destClient == p.destClient && q.sequence == p.sequence && Names(dest, p.destClient, q.sourceClient)
               && SameAcksOrBroken(sha, acks, written)
               && (forall i :: 0 <= i < |q.payloads| ==> WrittenIsReply(dest, q, written, i))
               && (forall i :: 0 <= i < |p.payloads| ==> Handed(sha, source.router.calls, source.router.port, p, acks, i))
               && (!Names(dest, p.destClient, p.sourceClient) ==> q != p)
               && (p.destClient in dest.honest ==>
                     (Names(dest, p.destClient, p.sourceClient) <==> q.sourceClient == p.sourceClient && SameOrBroken(sha, p, q)))
  {
    ReachedInv(sha, start, steps, w, side);
    var source, dest := w.At(side), w.At(Other(side));
    AckedAnswers(sha, source, dest, p, acks);
    var q := ReceivedPacket(dest, p.destClient, p.sequence);
    var written := WrittenAcks(dest, p.destClient, p.sequence);
    if acks != written {
      assert Breaks(sha, AckEvidence(sha, acks, written));
    }
    forall i | 0 <= i < |q.payloads| ensures WrittenIsReply(dest, q, written, i) {
      RepliesWritten(sha, dest, p.destClient, p.sequence, i);
    }
    if p.destClient in dest.honest && Names(dest, p.destClient, p.sourceClient) {
      AckedMatchesReceived(sha, source, dest, p, acks);
      SameOrBrokenFor(sha, p, q);
    }
  }

  lemma AckedAnswers(sha: Hash, source: Chain, dest: Chain, p: Packet, acks: seq<Bytes>)
    requires SideInv(sha, source, dest) && SideInv(sha, dest, source)
    requires AckPacket(p, acks) in source.router.events && p.sourceClient in source.honest
    ensures var key := (p.destClient, p.sequence);
            && key in dest.router.receipts
            && Count(dest.router.events, Received, key) == 1 && Count(dest.router.events, Written, key) == 1
            && CommitAck(sha, WrittenAcks(dest, p.destClient, p.sequence)) == CommitAck(sha, acks)
            && var q := ReceivedPacket(dest, p.destClient, p.sequence);
               && RecvPacket(q) in dest.router.events && q.destClient == p.destClient && q.sequence == p.sequence
               && Names(dest, p.destClient, q.sourceClient)
    ensures forall i :: 0 <= i < |p.payloads| ==> Handed(sha, source.router.calls, source.router.port, p, acks, i)
  {
    assert Justified(sha, source.honest, AckPacket(p, acks), dest.blocks);
    AckedWasReceived(sha, dest, source.prefix, p, acks);
    var q := ReceivedPacket(dest, p.destClient, p.sequence);
    assert RecvPacket(q) in dest.router.events;
    assert AcksHanded(sha, source.router);
  }

  lemma RepliesWritten(sha: Hash, dest: Chain, client: Bytes, sequence: U64, i: nat)
    requires Inv(sha, dest.router) && (client, sequence) in dest.router.receipts
    requires Count(dest.router.events, Received, (client, sequence)) > 0
    requires Count(dest.router.events, Written, (client, sequence)) > 0
    requires i < |ReceivedPacket(dest, client, sequence).payloads|
    ensures WrittenIsReply(dest, ReceivedPacket(dest, client, sequence), WrittenAcks(dest, client, sequence), i)
  {
    assert KeyInv(sha, dest.router, (client, sequence));
    var acks := WrittenAcks(dest, client, sequence);
    assert ReplyRecorded(dest.router.calls, dest.router.port, ReceivedPacket(dest, client, sequence), i, acks[i]);
  }

  lemma AckedMatchesReceived(sha: Hash, source: Chain, dest: Chain, p: Packet, acks: seq<Bytes>)
    requires SideInv(sha, source, dest) && SideInv(sha, dest, source)
    requires AckPacket(p, acks) in source.router.events && p.sourceClient in source.honest
    requires p.destClient in dest.honest && Names(dest, p.destClient, p.sourceClient)
    ensures var key := (p.destClient, p.sequence);
            && key in dest.router.receipts
            && Count(dest.router.events, Received, key) == 1 && Count(dest.router.events, Written, key) == 1
            && CommitAck(sha, WrittenAcks(dest, p.destClient, p.sequence)) == CommitAck(sha, acks)
            && var q := ReceivedPacket(dest, p.destClient, p.sequence);
               q.sourceClient == p.sourceClient && q.sequence == p.sequence && CommitPacket(sha, q) == CommitPacket(sha, p)
  {
    AckedAnswers(sha, source, dest, p, acks);
    var q := ReceivedPacket(dest, p.destClient, p.sequence);
    assert q.sourceClient == p.sourceClient;
    assert Justified(sha, dest.honest, RecvPacket(q), source.blocks);
    CommittedWasSent(sha, source, dest.prefix, q);
    SettledWasSent(sha, source, dest.prefix, AckPacket(p, acks));
  }

  // ---------------------------------------------------------------- the hypotheses can be met

  /** A light client that answers from the peer's actual history. */
  ghost function Oracle(peer: Chain): LightClients {
    LightClients(
      (q: Query, value: Bytes) => if MemberIn(peer, q.height, q.path, value) then Accepted else Rejected,
      (q: Query) => if AbsentIn(peer, q.height, q.path) then Accepted else Rejected,
      (addr: Address, client: Bytes, h: U64) => Some(if h < |peer.blocks| then peer.blocks[h].time else 0),
      Some(false),
      true,
      0)
  }

  lemma OracleIsSound(peer: Chain, client: Bytes)
    ensures Sound(Oracle(peer), peer, client)
  {
  }
}
