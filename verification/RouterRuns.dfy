/** What holds of one router over every run of its entry points. */
module RouterRuns {
  import opened Prelude
  import opened Paths
  import opened Commitments
  import opened ClientIds
  import opened Router

  datatype Tx = Tx(env: Env, action: Action)

  function Run(sha: Hash, st: State, txs: seq<Tx>): State {
    if |txs| == 0 then st
    else Step(sha, Run(sha, st, txs[..|txs| - 1]), txs[|txs| - 1].env, txs[|txs| - 1].action)
  }

  // ---------------------------------------------------------------- reading the event log

  datatype Role = Sent | Settled | Received | Written

  /** The (client, sequence) an event concerns in a given role. */
  function KeyOf(e: Event, role: Role): Option<SeqKey> {
    match role
    case Sent => if e.SendPacket? then Some((e.packet.sourceClient, e.packet.sequence)) else None
    case Settled => if e.AckPacket? || e.TimeoutPacket? then Some((e.packet.sourceClient, e.packet.sequence)) else None
    case Received => if e.RecvPacket? then Some((e.packet.destClient, e.packet.sequence)) else None
    case Written => if e.WriteAck? then Some((e.client, e.sequence)) else None
  }

  function Count(events: seq<Event>, role: Role, key: SeqKey): nat {
    if |events| == 0 then 0
    else Count(events[..|events| - 1], role, key) + (if KeyOf(events[|events| - 1], role) == Some(key) then 1 else 0)
  }

  function Last(events: seq<Event>, role: Role, key: SeqKey): (r: Option<Event>)
    ensures r.Some? ==> KeyOf(r.value, role) == Some(key) && r.value in events
    ensures r.Some? <==> Count(events, role, key) > 0
  {
    if |events| == 0 then None
    else if KeyOf(events[|events| - 1], role) == Some(key) then Some(events[|events| - 1])
    else Last(events[..|events| - 1], role, key)
  }

  lemma Appended(events: seq<Event>, e: Event, role: Role, key: SeqKey)
    ensures Count(events + [e], role, key) == Count(events, role, key) + (if KeyOf(e, role) == Some(key) then 1 else 0)
    ensures Last(events + [e], role, key) == if KeyOf(e, role) == Some(key) then Some(e) else Last(events, role, key)
  {
    assert (events + [e])[..|events|] == events;
  }

  lemma {:induction false} OccursIsCounted(events: seq<Event>, e: Event, role: Role, key: SeqKey)
    requires e in events && KeyOf(e, role) == Some(key)
    ensures Count(events, role, key) > 0
    ensures Count(events, role, key) == 1 ==> Last(events, role, key) == Some(e)
  {
    var front, last := events[..|events| - 1], events[|events| - 1];
    if e in front {
      OccursIsCounted(front, e, role, key);
    } else {
      assert e == last;
    }
  }

  // ---------------------------------------------------------------- callbacks

  function CallKey(c: Call, role: Role): Option<SeqKey> {
    match role
    case Received => if c.OnRecv? then Some((c.destClient, c.sequence)) else None
    case Settled => if c.OnAck? || c.OnTimeout? then Some((c.sourceClient, c.sequence)) else None
    case _ => None
  }

  function CallCount(calls: seq<Call>, role: Role, key: SeqKey): nat {
    if |calls| == 0 then 0
    else CallCount(calls[..|calls| - 1], role, key) + (if CallKey(calls[|calls| - 1], role) == Some(key) then 1 else 0)
  }

  lemma {:induction false} CallsAppended(calls: seq<Call>, more: seq<Call>, role: Role, key: SeqKey)
    ensures CallCount(calls + more, role, key) == CallCount(calls, role, key) + CallCount(more, role, key)
  {
    if |more| == 0 {
      assert calls + more == calls;
    } else {
      assert (calls + more)[..|calls + more| - 1] == calls + more[..|more| - 1];
      CallsAppended(calls, more[..|more| - 1], role, key);
    }
  }

  lemma {:induction false} UniformCalls(calls: seq<Call>, role: Role, home: Option<SeqKey>, key: SeqKey)
    requires forall i :: 0 <= i < |calls| ==> CallKey(calls[i], role) == home
    ensures CallCount(calls, role, key) == if home == Some(key) then |calls| else 0
  {
    if |calls| > 0 {
      UniformCalls(calls[..|calls| - 1], role, home, key);
    }
  }

  // ---------------------------------------------------------------- the invariant

  function Commitment(st: State, key: SeqKey): Option<Digest> {
    if key in st.commitments then Some(st.commitments[key]) else None
  }

  /** Sequences per client are 1, 2, 3, ... each used once, and every sent packet is either
      live, with its own commitment stored, or was settled, exactly once. */
  ghost predicate SendsSettleOnce(sha: Hash, events: seq<Event>, next: U64, live: Option<Digest>, key: SeqKey) {
    && Count(events, Sent, key) == (if 1 <= key.1 <= next then 1 else 0)
    && Count(events, Settled, key) + (if live.Some? then 1 else 0) == Count(events, Sent, key)
    && (live.Some? ==> live.value == CommitPacket(sha, Last(events, Sent, key).value.packet))
    && (Count(events, Settled, key) > 0 ==>
          CommitPacket(sha, Last(events, Settled, key).value.packet) == CommitPacket(sha, Last(events, Sent, key).value.packet))
  }

  function Acknowledgement(st: State, key: SeqKey): Option<Digest> {
    if key in st.acks then Some(st.acks[key]) else None
  }

  /** A receipt exists exactly when an acknowledgement exists; both come from one receive. */
  ghost predicate ReceivesOnce(sha: Hash, events: seq<Event>, received: bool, ack: Option<Digest>, key: SeqKey) {
    && (received <==> ack.Some?)
    && Count(events, Received, key) == (if received then 1 else 0)
    && Count(events, Written, key) == (if received then 1 else 0)
    && (received ==> ack.value == CommitAck(sha, Last(events, Written, key).value.acks))
  }

  /** Every payload of a received packet was delivered once, and the acknowledgement written for
      it is what its application returned. */
  ghost predicate DeliversOnce(events: seq<Event>, calls: seq<Call>, port: map<Bytes, Address>, received: bool, key: SeqKey) {
    if !received then CallCount(calls, Received, key) == 0
    else
      && Count(events, Received, key) > 0 && Count(events, Written, key) > 0
      && var p := Last(events, Received, key).value.packet;
         var acks := Last(events, Written, key).value.acks;
         && CallCount(calls, Received, key) == |p.payloads|
         && |acks| == (if p.payloads == [] then 1 else |p.payloads|)
         && forall i :: 0 <= i < |p.payloads| ==> ReplyRecorded(calls, port, p, i, acks[i])
  }

  ghost predicate ReplyRecorded(calls: seq<Call>, port: map<Bytes, Address>, p: Packet, i: nat, ack: Bytes)
    requires i < |p.payloads|
  {
    && p.payloads[i].destPort in port
    && OnRecv(port[p.payloads[i].destPort], p.sourceClient, p.destClient, p.sequence, p.payloads[i], ack) in calls
  }

  /** Every payload of a settled packet got exactly one acknowledgement or timeout callback. */
  ghost predicate CallsBackOnce(events: seq<Event>, calls: seq<Call>, key: SeqKey) {
    CallCount(calls, Settled, key)
      == if Count(events, Settled, key) > 0 then |Last(events, Settled, key).value.packet.payloads| else 0
  }

  ghost predicate KeyInv(sha: Hash, st: State, key: SeqKey) {
    && SendsSettleOnce(sha, st.events, NextSeq(st, key.0), Commitment(st, key), key)
    && ReceivesOnce(sha, st.events, key in st.receipts, Acknowledgement(st, key), key)
    && DeliversOnce(st.events, st.calls, st.port, key in st.receipts, key)
    && CallsBackOnce(st.events, st.calls, key)
  }

  /** Acknowledgement and timeout callbacks go to the application that owns the source port. */
  ghost predicate CallsGoHome(calls: seq<Call>, port: map<Bytes, Address>) {
    forall i :: 0 <= i < |calls| && !calls[i].OnRecv? ==>
      calls[i].payload.sourcePort in port && calls[i].app == port[calls[i].payload.sourcePort]
  }

  /** Client ids are minted from per-type counters, so the next one is always fresh. */
  ghost predicate IdsMinted(st: State) {
    && st.lcAddr.Keys == st.clientType.Keys
    && st.counterparty.Keys <= st.clientType.Keys
    && forall id :: id in st.clientType ==> MintedBefore(st, st.clientType[id], id)
  }

  ghost predicate MintedBefore(st: State, t: Bytes, id: Bytes) {
    exists n: U32 :: n < NextClient(st, t) && id == ClientId(t, n)
  }

  ghost predicate Inv(sha: Hash, st: State) {
    && (forall key: SeqKey :: KeyInv(sha, st, key))
    && CallsGoHome(st.calls, st.port)
    && IdsMinted(st)
  }

  ghost predicate Keeps<K, V>(m: map<K, V>, m': map<K, V>) {
    forall k :: k in m ==> k in m' && m'[k] == m[k]
  }

  /** Nothing that a proof or a callback may rely on is ever withdrawn. */
  ghost predicate Evolves(st: State, st': State) {
    && st.events <= st'.events
    && st.calls <= st'.calls
    && st.receipts <= st'.receipts
    && Keeps(st.acks, st'.acks)
    && Keeps(st.port, st'.port)
    && Keeps(st.lcAddr, st'.lcAddr)
    && Keeps(st.counterparty, st'.counterparty)
    && (forall c: Bytes :: NextSeq(st, c) <= NextSeq(st', c))
  }

  lemma InitialInv(sha: Hash, admin: Address)
    ensures Inv(sha, Initial(admin))
  {
  }

  // ---------------------------------------------------------------- registration steps

  lemma FreshClientId(st: State, clientType: Bytes)
    requires IdsMinted(st)
    requires Minted(clientType, NextClient(st, clientType)).Some?
    ensures Minted(clientType, NextClient(st, clientType)).value !in st.clientType
  {
    var n := NextClient(st, clientType);
    var id := Minted(clientType, n).value;
    if id in st.clientType {
      var t := st.clientType[id];
      assert MintedBefore(st, t, id);
      var k: U32 :| k < NextClient(st, t) && id == ClientId(t, k);
      ClientIdInjective(t, k, clientType, n);
    }
  }

  lemma CreateClientMints(st: State, env: Env, clientType: Bytes)
    requires IdsMinted(st) && CreateClient(st, env, clientType).Ok?
    ensures var st' := CreateClient(st, env, clientType).value;
            IdsMinted(st') && Keeps(st.lcAddr, st'.lcAddr)
  {
    FreshClientId(st, clientType);
    var n := NextClient(st, clientType);
    var id := Minted(clientType, n).value;
    var st' := CreateClient(st, env, clientType).value;
    forall x | x in st'.clientType ensures MintedBefore(st', st'.clientType[x], x) {
      if x == id {
        assert n < NextClient(st', clientType) && x == ClientId(clientType, n);
      } else {
        assert MintedBefore(st, st.clientType[x], x);
        var k: U32 :| k < NextClient(st, st.clientType[x]) && x == ClientId(st.clientType[x], k);
        assert k < NextClient(st', st.clientType[x]);
      }
    }
  }

  lemma DeliveriesStand(events: seq<Event>, calls: seq<Call>, port: map<Bytes, Address>, port': map<Bytes, Address>,
                        received: bool, key: SeqKey)
    requires DeliversOnce(events, calls, port, received, key) && Keeps(port, port')
    ensures DeliversOnce(events, calls, port', received, key)
  {
    if received {
      var p := Last(events, Received, key).value.packet;
      var acks := Last(events, Written, key).value.acks;
      forall i | 0 <= i < |p.payloads| ensures ReplyRecorded(calls, port', p, i, acks[i]) {
        assert ReplyRecorded(calls, port, p, i, acks[i]);
      }
    }
  }

  /** Steps that leave sequences, the store, events and calls alone. */
  lemma QuietStepKeeps(sha: Hash, st: State, st': State)
    requires Inv(sha, st) && IdsMinted(st')
    requires LeavesPackets(st, st')
    requires Keeps(st.port, st'.port) && Keeps(st.lcAddr, st'.lcAddr) && Keeps(st.counterparty, st'.counterparty)
    ensures Inv(sha, st') && Evolves(st, st')
  {
    forall key: SeqKey ensures KeyInv(sha, st', key) {
      assert KeyInv(sha, st, key);
      DeliveriesStand(st.events, st.calls, st.port, st'.port, key in st.receipts, key);
    }
  }

  predicate IsRegistration(a: Action) {
    a.DoRegisterPort? || a.DoRegisterClientType? || a.DoCreateClient? || a.DoRegisterCounterparty? || a.DoUpdateClient?
  }

  lemma RegistrationIsQuiet(sha: Hash, st: State, env: Env, a: Action)
    requires IsRegistration(a) && Exec(sha, st, env, a).Ok?
    ensures var st' := Exec(sha, st, env, a).value;
            LeavesPackets(st, st')
  {
  }

  // ---------------------------------------------------------------- packet steps, key by key

  lemma SparesReceipts(sha: Hash, events: seq<Event>, e: Event, received: bool, ack: Option<Digest>, key: SeqKey)
    requires ReceivesOnce(sha, events, received, ack, key) && !e.RecvPacket? && !e.WriteAck?
    ensures ReceivesOnce(sha, events + [e], received, ack, key)
  {
    Appended(events, e, Received, key);
    Appended(events, e, Written, key);
  }

  lemma SparesDeliveries(events: seq<Event>, e: Event, calls: seq<Call>, more: seq<Call>, port: map<Bytes, Address>,
                         received: bool, key: SeqKey)
    requires DeliversOnce(events, calls, port, received, key) && !e.RecvPacket? && !e.WriteAck?
    requires forall i :: 0 <= i < |more| ==> !more[i].OnRecv?
    ensures DeliversOnce(events + [e], calls + more, port, received, key)
  {
    Appended(events, e, Received, key);
    Appended(events, e, Written, key);
    CallsAppended(calls, more, Received, key);
    UniformCalls(more, Received, None, key);
    if received {
      RepliesStand(events, calls, port, more, key);
    }
  }

  lemma SendKeepsKey(sha: Hash, st: State, packet: Packet, st': State, key: SeqKey)
    requires KeyInv(sha, st, key) && Sending(sha, st, packet, st')
    ensures KeyInv(sha, st', key)
  {
    var e := SendPacket(packet);
    SendRecords(sha, st, packet, st', key);
    SparesReceipts(sha, st.events, e, key in st.receipts, Acknowledgement(st, key), key);
    SparesDeliveries(st.events, e, st.calls, [], st.port, key in st.receipts, key);
    assert st.calls + [] == st.calls;
  }

  lemma SendRecords(sha: Hash, st: State, packet: Packet, st': State, key: SeqKey)
    requires Sending(sha, st, packet, st')
    requires SendsSettleOnce(sha, st.events, NextSeq(st, key.0), Commitment(st, key), key)
    requires CallsBackOnce(st.events, st.calls, key)
    ensures SendsSettleOnce(sha, st'.events, NextSeq(st', key.0), Commitment(st', key), key)
    ensures CallsBackOnce(st'.events, st'.calls, key)
  {
    Appended(st.events, SendPacket(packet), Sent, key);
    Appended(st.events, SendPacket(packet), Settled, key);
  }

  /** What a successful `Send` does. */
  ghost predicate Sending(sha: Hash, st: State, p: Packet, st': State) {
    && p.sequence == NextSeq(st, p.sourceClient) + 1
    && st' == st.(nextSeqSend := st.nextSeqSend[p.sourceClient := p.sequence],
                  commitments := st.commitments[(p.sourceClient, p.sequence) := CommitPacket(sha, p)],
                  events := st.events + [SendPacket(p)])
  }

  lemma SendSends(sha: Hash, st: State, env: Env, client: Bytes, timeout: U64, payloads: seq<Payload>)
    requires Send(sha, st, env, client, timeout, payloads).Ok?
    ensures Sending(sha, st, Packet(NextSeq(st, client) + 1, client, st.counterparty[client].clientId, timeout, payloads),
                    Send(sha, st, env, client, timeout, payloads).value)
  {
  }

  lemma AppendedTwo(events: seq<Event>, e: Event, f: Event, role: Role, key: SeqKey)
    ensures Count(events + [e, f], role, key)
         == Count(events, role, key) + (if KeyOf(e, role) == Some(key) then 1 else 0)
                                     + (if KeyOf(f, role) == Some(key) then 1 else 0)
    ensures Last(events + [e, f], role, key)
         == if KeyOf(f, role) == Some(key) then Some(f)
            else if KeyOf(e, role) == Some(key) then Some(e) else Last(events, role, key)
  {
    assert events + [e, f] == (events + [e]) + [f];
    Appended(events, e, role, key);
    Appended(events + [e], f, role, key);
  }

  /** What a successful `Recv` does. */
  ghost predicate Reception(sha: Hash, st: State, p: Packet, calls: seq<Call>, acks: seq<Bytes>, st': State) {
    var home := (p.destClient, p.sequence);
    && home !in st.receipts
    && |calls| == |p.payloads|
    && |acks| == (if p.payloads == [] then 1 else |p.payloads|)
    && (forall i :: 0 <= i < |calls| ==>
          && p.payloads[i].destPort in st.port
          && calls[i] == OnRecv(st.port[p.payloads[i].destPort], p.sourceClient, p.destClient, p.sequence,
                                p.payloads[i], acks[i]))
    && st' == st.(receipts := st.receipts + {home},
                  acks := st.acks[home := CommitAck(sha, acks)],
                  calls := st.calls + calls,
                  events := st.events + [RecvPacket(p), WriteAck(p.destClient, p.sequence, acks)])
  }

  lemma RecvReceives(sha: Hash, st: State, env: Env, p: Packet, proof: Bytes, height: U64)
    requires Recv(sha, st, env, p, proof, height).Ok?
    ensures var calls := RecvCalls(st.port, env, p, |p.payloads|).value;
            Reception(sha, st, p, calls, AcksOf(sha, calls), Recv(sha, st, env, p, proof, height).value)
  {
    var spec := RecvCalls(st.port, env, p, |p.payloads|);
    assert spec.Ok?;
    var calls, acks := spec.value, AcksOf(sha, spec.value);
    AcksFitCalls(sha, st.port, env, p, calls);
    var key := (p.destClient, p.sequence);
    assert key !in st.receipts;
    assert Recv(sha, st, env, p, proof, height).value
        == st.(receipts := st.receipts + {key},
               acks := st.acks[key := CommitAck(sha, acks)],
               calls := st.calls + calls,
               events := st.events + [RecvPacket(p), WriteAck(p.destClient, p.sequence, acks)]);
  }

  /** One acknowledgement per call, in order. */
  lemma AcksFitCalls(sha: Hash, port: map<Bytes, Address>, env: Env, p: Packet, calls: seq<Call>)
    requires RecvCalls(port, env, p, |p.payloads|) == Ok(calls)
    ensures |calls| == |p.payloads|
    ensures |AcksOf(sha, calls)| == (if p.payloads == [] then 1 else |p.payloads|)
    ensures forall i :: 0 <= i < |calls| ==>
              && p.payloads[i].destPort in port
              && calls[i] == OnRecv(port[p.payloads[i].destPort], p.sourceClient, p.destClient, p.sequence,
                                    p.payloads[i], AcksOf(sha, calls)[i])
  {
  }

  lemma RecvIsReception(sha: Hash, st: State, env: Env, p: Packet, proof: Bytes, height: U64)
      returns (calls: seq<Call>, acks: seq<Bytes>)
    requires Recv(sha, st, env, p, proof, height).Ok?
    ensures Reception(sha, st, p, calls, acks, Recv(sha, st, env, p, proof, height).value)
  {
    RecvReceives(sha, st, env, p, proof, height);
    calls := RecvCalls(st.port, env, p, |p.payloads|).value;
    acks := AcksOf(sha, calls);
  }

  lemma ReceiptSparesSends(sha: Hash, events: seq<Event>, p: Packet, acks: seq<Bytes>, next: U64, live: Option<Digest>, key: SeqKey)
    requires SendsSettleOnce(sha, events, next, live, key)
    ensures SendsSettleOnce(sha, events + [RecvPacket(p), WriteAck(p.destClient, p.sequence, acks)], next, live, key)
  {
    var e, f := RecvPacket(p), WriteAck(p.destClient, p.sequence, acks);
    AppendedTwo(events, e, f, Sent, key);
    AppendedTwo(events, e, f, Settled, key);
  }

  lemma ReceiptRecorded(sha: Hash, events: seq<Event>, p: Packet, acks: seq<Bytes>, received: bool, ack: Option<Digest>, key: SeqKey)
    requires ReceivesOnce(sha, events, received, ack, key)
    requires key == (p.destClient, p.sequence) ==> !received
    ensures var home := key == (p.destClient, p.sequence);
            ReceivesOnce(sha, events + [RecvPacket(p), WriteAck(p.destClient, p.sequence, acks)],
                         received || home, if home then Some(CommitAck(sha, acks)) else ack, key)
  {
    var e, f := RecvPacket(p), WriteAck(p.destClient, p.sequence, acks);
    AppendedTwo(events, e, f, Received, key);
    AppendedTwo(events, e, f, Written, key);
  }

  lemma RecvDelivers(sha: Hash, st: State, p: Packet, calls: seq<Call>, acks: seq<Bytes>, st': State)
    requires Reception(sha, st, p, calls, acks, st')
    requires DeliversOnce(st.events, st.calls, st.port, false, (p.destClient, p.sequence))
    ensures DeliversOnce(st'.events, st'.calls, st'.port, true, (p.destClient, p.sequence))
  {
    var home := (p.destClient, p.sequence);
    var e, f := RecvPacket(p), WriteAck(p.destClient, p.sequence, acks);
    AppendedTwo(st.events, e, f, Received, home);
    AppendedTwo(st.events, e, f, Written, home);
    CallsAppended(st.calls, calls, Received, home);
    UniformCalls(calls, Received, Some(home), home);
    forall i | 0 <= i < |p.payloads| ensures ReplyRecorded(st'.calls, st'.port, p, i, acks[i]) {
      assert calls[i] == st'.calls[|st.calls| + i];
    }
  }

  lemma RecvSparesDeliveries(sha: Hash, st: State, p: Packet, calls: seq<Call>, acks: seq<Bytes>, st': State, key: SeqKey)
    requires Reception(sha, st, p, calls, acks, st') && key != (p.destClient, p.sequence)
    requires DeliversOnce(st.events, st.calls, st.port, key in st.receipts, key)
    ensures DeliversOnce(st'.events, st'.calls, st'.port, key in st'.receipts, key)
  {
    var e, f := RecvPacket(p), WriteAck(p.destClient, p.sequence, acks);
    AppendedTwo(st.events, e, f, Received, key);
    AppendedTwo(st.events, e, f, Written, key);
    CallsAppended(st.calls, calls, Received, key);
    UniformCalls(calls, Received, Some((p.destClient, p.sequence)), key);
    if key in st.receipts {
      RepliesStand(st.events, st.calls, st.port, calls, key);
    }
  }

  lemma RecvSparesCallbacks(sha: Hash, st: State, p: Packet, calls: seq<Call>, acks: seq<Bytes>, st': State, key: SeqKey)
    requires Reception(sha, st, p, calls, acks, st') && CallsBackOnce(st.events, st.calls, key)
    ensures CallsBackOnce(st'.events, st'.calls, key)
  {
    AppendedTwo(st.events, RecvPacket(p), WriteAck(p.destClient, p.sequence, acks), Settled, key);
    CallsAppended(st.calls, calls, Settled, key);
    UniformCalls(calls, Settled, None, key);
  }

  lemma RepliesStand(events: seq<Event>, calls: seq<Call>, port: map<Bytes, Address>, more: seq<Call>, key: SeqKey)
    requires DeliversOnce(events, calls, port, true, key)
    ensures var p := Last(events, Received, key).value.packet;
            var acks := Last(events, Written, key).value.acks;
            forall i :: 0 <= i < |p.payloads| ==> ReplyRecorded(calls + more, port, p, i, acks[i])
  {
    var p := Last(events, Received, key).value.packet;
    var acks := Last(events, Written, key).value.acks;
    forall i | 0 <= i < |p.payloads| ensures ReplyRecorded(calls + more, port, p, i, acks[i]) {
      assert ReplyRecorded(calls, port, p, i, acks[i]);
    }
  }

  /** What a successful `Acknowledge` or `Timeout` does. */
  ghost predicate Settlement(sha: Hash, st: State, p: Packet, e: Event, calls: seq<Call>, st': State) {
    var home := (p.sourceClient, p.sequence);
    && home in st.commitments && st.commitments[home] == CommitPacket(sha, p)
    && (e == TimeoutPacket(p) || (e.AckPacket? && e.packet == p))
    && |calls| == |p.payloads|
    && (forall i :: 0 <= i < |calls| ==>
          && CallKey(calls[i], Settled) == Some(home) && !calls[i].OnRecv?
          && calls[i].payload == p.payloads[i]
          && p.payloads[i].sourcePort in st.port && calls[i].app == st.port[p.payloads[i].sourcePort])
    && st' == st.(commitments := st.commitments - {home},
                  calls := st.calls + calls, events := st.events + [e])
  }

  lemma AcknowledgeSettles(sha: Hash, st: State, env: Env, p: Packet, acks: seq<Bytes>, proof: Bytes, height: U64)
    requires Acknowledge(sha, st, env, p, acks, proof, height).Ok?
    ensures Settlement(sha, st, p, AckPacket(p, acks), AckCalls(sha, st.port, env, p, acks, |p.payloads|).value,
                       Acknowledge(sha, st, env, p, acks, proof, height).value)
  {
    assert SettleError(sha, st, p) == None;
    var spec := AckCalls(sha, st.port, env, p, acks, |p.payloads|);
    assert spec.Ok?;
    assert Acknowledge(sha, st, env, p, acks, proof, height).value
        == st.(commitments := st.commitments - {(p.sourceClient, p.sequence)},
               calls := st.calls + spec.value,
               events := st.events + [AckPacket(p, acks)]);
  }

  lemma TimeoutSettles(sha: Hash, st: State, env: Env, p: Packet, proof: Bytes, height: U64)
    requires Timeout(sha, st, env, p, proof, height).Ok?
    ensures Settlement(sha, st, p, TimeoutPacket(p), TimeoutCalls(st.port, env, p, |p.payloads|).value,
                       Timeout(sha, st, env, p, proof, height).value)
  {
    assert SettleError(sha, st, p) == None;
    var spec := TimeoutCalls(st.port, env, p, |p.payloads|);
    assert spec.Ok?;
    assert Timeout(sha, st, env, p, proof, height).value
        == st.(commitments := st.commitments - {(p.sourceClient, p.sequence)},
               calls := st.calls + spec.value,
               events := st.events + [TimeoutPacket(p)]);
  }

  lemma SettleKeepsKey(sha: Hash, st: State, p: Packet, e: Event, calls: seq<Call>, st': State, key: SeqKey)
    requires KeyInv(sha, st, key) && Settlement(sha, st, p, e, calls, st')
    ensures KeyInv(sha, st', key)
  {
    SettleSettles(sha, st, p, e, calls, st', key);
    SparesReceipts(sha, st.events, e, key in st.receipts, Acknowledgement(st, key), key);
    SparesDeliveries(st.events, e, st.calls, calls, st.port, key in st.receipts, key);
  }

  lemma SettleSettles(sha: Hash, st: State, p: Packet, e: Event, calls: seq<Call>, st': State, key: SeqKey)
    requires Settlement(sha, st, p, e, calls, st')
    requires SendsSettleOnce(sha, st.events, NextSeq(st, key.0), Commitment(st, key), key)
    requires CallsBackOnce(st.events, st.calls, key)
    ensures SendsSettleOnce(sha, st'.events, NextSeq(st', key.0), Commitment(st', key), key)
    ensures CallsBackOnce(st'.events, st'.calls, key)
  {
    Appended(st.events, e, Sent, key);
    Appended(st.events, e, Settled, key);
    CallsAppended(st.calls, calls, Settled, key);
    UniformCalls(calls, Settled, Some((p.sourceClient, p.sequence)), key);
  }

  // ---------------------------------------------------------------- all steps

  lemma SendKeeps(sha: Hash, st: State, env: Env, client: Bytes, timeout: U64, payloads: seq<Payload>)
    requires Inv(sha, st) && Send(sha, st, env, client, timeout, payloads).Ok?
    ensures var st' := Send(sha, st, env, client, timeout, payloads).value;
            Inv(sha, st') && Evolves(st, st')
  {
    SendSends(sha, st, env, client, timeout, payloads);
    var packet := Packet(NextSeq(st, client) + 1, client, st.counterparty[client].clientId, timeout, payloads);
    SendingKeeps(sha, st, packet, Send(sha, st, env, client, timeout, payloads).value);
  }

  lemma SendingKeeps(sha: Hash, st: State, packet: Packet, st': State)
    requires Inv(sha, st) && Sending(sha, st, packet, st')
    ensures Inv(sha, st') && Evolves(st, st')
  {
    forall key: SeqKey ensures KeyInv(sha, st', key) {
      assert KeyInv(sha, st, key);
      SendKeepsKey(sha, st, packet, st', key);
    }
    IdsUntouched(st, st');
  }

  lemma RecvKeepsKey(sha: Hash, st: State, p: Packet, calls: seq<Call>, acks: seq<Bytes>, st': State, key: SeqKey)
    requires KeyInv(sha, st, key) && Reception(sha, st, p, calls, acks, st')
    ensures KeyInv(sha, st', key)
  {
    ReceiptSparesSends(sha, st.events, p, acks, NextSeq(st, key.0), Commitment(st, key), key);
    ReceiptRecorded(sha, st.events, p, acks, key in st.receipts, Acknowledgement(st, key), key);
    RecvSparesCallbacks(sha, st, p, calls, acks, st', key);
    if key == (p.destClient, p.sequence) {
      RecvDelivers(sha, st, p, calls, acks, st');
    } else {
      RecvSparesDeliveries(sha, st, p, calls, acks, st', key);
    }
  }

  lemma ReceptionKeeps(sha: Hash, st: State, p: Packet, calls: seq<Call>, acks: seq<Bytes>, st': State)
    requires Inv(sha, st) && Reception(sha, st, p, calls, acks, st')
    ensures Inv(sha, st') && Evolves(st, st')
  {
    forall key: SeqKey ensures KeyInv(sha, st', key) {
      assert KeyInv(sha, st, key);
      RecvKeepsKey(sha, st, p, calls, acks, st', key);
    }
    assert Keeps(st.acks, st'.acks) by {
      assert KeyInv(sha, st, (p.destClient, p.sequence));
    }
    IdsUntouched(st, st');
  }

  lemma SettleKeeps(sha: Hash, st: State, p: Packet, e: Event, calls: seq<Call>, st': State)
    requires Inv(sha, st) && Settlement(sha, st, p, e, calls, st')
    ensures Inv(sha, st') && Evolves(st, st')
  {
    forall key: SeqKey ensures KeyInv(sha, st', key) {
      assert KeyInv(sha, st, key);
      SettleKeepsKey(sha, st, p, e, calls, st', key);
    }
    IdsUntouched(st, st');
  }

  lemma IdsUntouched(st: State, st': State)
    requires IdsMinted(st)
    requires st'.nextClientId == st.nextClientId && st'.clientType == st.clientType
    requires st'.lcAddr == st.lcAddr && st.counterparty.Keys <= st'.counterparty.Keys <= st.clientType.Keys
    ensures IdsMinted(st')
  {
    forall id | id in st'.clientType ensures MintedBefore(st', st'.clientType[id], id) {
      assert MintedBefore(st, st.clientType[id], id);
    }
  }

  lemma AcknowledgeKeeps(sha: Hash, st: State, env: Env, p: Packet, acks: seq<Bytes>, proof: Bytes, height: U64)
    requires Inv(sha, st) && Acknowledge(sha, st, env, p, acks, proof, height).Ok?
    ensures var st' := Acknowledge(sha, st, env, p, acks, proof, height).value;
            Inv(sha, st') && Evolves(st, st')
  {
    AcknowledgeSettles(sha, st, env, p, acks, proof, height);
    SettleKeeps(sha, st, p, AckPacket(p, acks), AckCalls(sha, st.port, env, p, acks, |p.payloads|).value,
                Acknowledge(sha, st, env, p, acks, proof, height).value);
  }

  lemma TimeoutKeeps(sha: Hash, st: State, env: Env, p: Packet, proof: Bytes, height: U64)
    requires Inv(sha, st) && Timeout(sha, st, env, p, proof, height).Ok?
    ensures var st' := Timeout(sha, st, env, p, proof, height).value;
            Inv(sha, st') && Evolves(st, st')
  {
    TimeoutSettles(sha, st, env, p, proof, height);
    SettleKeeps(sha, st, p, TimeoutPacket(p), TimeoutCalls(st.port, env, p, |p.payloads|).value,
                Timeout(sha, st, env, p, proof, height).value);
  }

  lemma ReceiveKeeps(sha: Hash, st: State, env: Env, p: Packet, proof: Bytes, height: U64)
    requires Inv(sha, st) && Recv(sha, st, env, p, proof, height).Ok?
    ensures var st' := Recv(sha, st, env, p, proof, height).value;
            Inv(sha, st') && Evolves(st, st')
  {
    var st' := Recv(sha, st, env, p, proof, height).value;
    var calls, acks := RecvIsReception(sha, st, env, p, proof, height);
    ReceptionKeeps(sha, st, p, calls, acks, st');
  }

  lemma RegisterPortKeeps(sha: Hash, st: State, env: Env, port: Bytes, app: Address)
    requires Inv(sha, st) && RegisterPort(st, env, port, app).Ok?
    ensures var st' := RegisterPort(st, env, port, app).value;
            Inv(sha, st') && Evolves(st, st')
  {
    var st' := RegisterPort(st, env, port, app).value;
    IdsUntouched(st, st');
    QuietStepKeeps(sha, st, st');
  }

  lemma RegisterClientTypeKeeps(sha: Hash, st: State, env: Env, clientType: Bytes, lc: Address)
    requires Inv(sha, st) && RegisterClientType(st, env, clientType, lc).Ok?
    ensures var st' := RegisterClientType(st, env, clientType, lc).value;
            Inv(sha, st') && Evolves(st, st')
  {
    var st' := RegisterClientType(st, env, clientType, lc).value;
    IdsUntouched(st, st');
    QuietStepKeeps(sha, st, st');
  }

  lemma CreateClientKeeps(sha: Hash, st: State, env: Env, clientType: Bytes)
    requires Inv(sha, st) && CreateClient(st, env, clientType).Ok?
    ensures var st' := CreateClient(st, env, clientType).value;
            Inv(sha, st') && Evolves(st, st')
  {
    CreateClientMints(st, env, clientType);
    QuietStepKeeps(sha, st, CreateClient(st, env, clientType).value);
  }

  lemma RegisterCounterpartyKeeps(sha: Hash, st: State, client: Bytes, peer: Bytes, prefix: seq<Bytes>)
    requires Inv(sha, st) && RegisterCounterparty(st, client, peer, prefix).Ok?
    ensures var st' := RegisterCounterparty(st, client, peer, prefix).value;
            Inv(sha, st') && Evolves(st, st')
  {
    var st' := RegisterCounterparty(st, client, peer, prefix).value;
    IdsUntouched(st, st');
    QuietStepKeeps(sha, st, st');
  }

  lemma UpdateClientKeeps(sha: Hash, st: State, env: Env, client: Bytes)
    requires Inv(sha, st) && UpdateClient(st, env, client).Ok?
    ensures var st' := UpdateClient(st, env, client).value;
            Inv(sha, st') && Evolves(st, st')
  {
    var st' := UpdateClient(st, env, client).value;
    assert st' == st.(frozen := st'.frozen);
    IdsUntouched(st, st');
    QuietStepKeeps(sha, st, st');
  }

  /** No entry point breaks the invariant or withdraws anything, and
      `write_acknowledgement` never succeeds. */
  lemma ExecKeeps(sha: Hash, st: State, env: Env, a: Action)
    requires Inv(sha, st) && Exec(sha, st, env, a).Ok?
    ensures Inv(sha, Exec(sha, st, env, a).value)
    ensures Evolves(st, Exec(sha, st, env, a).value)
    ensures !a.DoWriteAck?
  {
    match a
    case DoRegisterPort(port, app) => RegisterPortKeeps(sha, st, env, port, app);
    case DoRegisterClientType(clientType, lc) => RegisterClientTypeKeeps(sha, st, env, clientType, lc);
    case DoCreateClient(clientType) => CreateClientKeeps(sha, st, env, clientType);
    case DoRegisterCounterparty(client, peer, prefix) => RegisterCounterpartyKeeps(sha, st, client, peer, prefix);
    case DoUpdateClient(client) => UpdateClientKeeps(sha, st, env, client);
    case DoSend(client, timeout, payloads) => SendKeeps(sha, st, env, client, timeout, payloads);
    case DoRecv(p, proof, height) => ReceiveKeeps(sha, st, env, p, proof, height);
    case DoWriteAck(client, sequence, acks) => WriteAckRefused(sha, st, client, sequence, acks);
    case DoAcknowledge(p, acks, proof, height) => AcknowledgeKeeps(sha, st, env, p, acks, proof, height);
    case DoTimeout(p, proof, height) => TimeoutKeeps(sha, st, env, p, proof, height);
  }

  lemma WriteAckRefused(sha: Hash, st: State, client: Bytes, sequence: U64, acks: seq<Bytes>)
    requires Inv(sha, st)
    ensures WriteAcknowledgement(sha, st, client, sequence, acks).Err?
  {
    assert KeyInv(sha, st, (client, sequence));
  }

  // ---------------------------------------------------------------- runs

  lemma EvolvesTrans(a: State, b: State, c: State)
    requires Evolves(a, b) && Evolves(b, c)
    ensures Evolves(a, c)
  {
  }

  lemma {:induction false} RunKeeps(sha: Hash, st: State, txs: seq<Tx>)
    requires Inv(sha, st)
    ensures Inv(sha, Run(sha, st, txs)) && Evolves(st, Run(sha, st, txs))
  {
    if |txs| > 0 {
      var mid, tx := Run(sha, st, txs[..|txs| - 1]), txs[|txs| - 1];
      RunKeeps(sha, st, txs[..|txs| - 1]);
      if Exec(sha, mid, tx.env, tx.action).Ok? {
        ExecKeeps(sha, mid, tx.env, tx.action);
        EvolvesTrans(st, mid, Run(sha, st, txs));
      }
    }
  }

  lemma {:induction false} RunSplit(sha: Hash, st: State, xs: seq<Tx>, ys: seq<Tx>)
    ensures Run(sha, st, xs + ys) == Run(sha, Run(sha, st, xs), ys)
  {
    if |ys| == 0 {
      assert xs + ys == xs;
    } else {
      assert (xs + ys)[..|xs + ys| - 1] == xs + ys[..|ys| - 1];
      RunSplit(sha, st, xs, ys[..|ys| - 1]);
    }
  }

  lemma SettlingNeedsCommitment(sha: Hash, st: State, env: Env, p: Packet, acks: seq<Bytes>, proof: Bytes, height: U64)
    requires (p.sourceClient, p.sequence) !in st.commitments
    ensures Acknowledge(sha, st, env, p, acks, proof, height).Err? && Timeout(sha, st, env, p, proof, height).Err?
  {
    assert SettleError(sha, st, p).Some?;
  }

  /** From deployment on, in every reachable state: each sequence number of a client was sent
      exactly once up to the counter; a sent packet is live or was settled once, never both;
      and a second settlement of it is refused whatever proof comes with it. */
  lemma SettledAtMostOnce(sha: Hash, admin: Address, txs: seq<Tx>, key: SeqKey, env: Env, p: Packet, acks: seq<Bytes>,
                          proof: Bytes, height: U64)
    ensures var st := Run(sha, Initial(admin), txs);
            && Count(st.events, Sent, key) == (if 1 <= key.1 <= NextSeq(st, key.0) then 1 else 0)
            && Count(st.events, Settled, key) + (if key in st.commitments then 1 else 0) == Count(st.events, Sent, key)
            && (Count(st.events, Settled, key) > 0 && (p.sourceClient, p.sequence) == key ==>
                  Acknowledge(sha, st, env, p, acks, proof, height).Err? && Timeout(sha, st, env, p, proof, height).Err?)
  {
    InitialInv(sha, admin);
    RunKeeps(sha, Initial(admin), txs);
    var st := Run(sha, Initial(admin), txs);
    assert KeyInv(sha, st, key);
    if key !in st.commitments && (p.sourceClient, p.sequence) == key {
      SettlingNeedsCommitment(sha, st, env, p, acks, proof, height);
    }
  }

  /** In every reachable state: receipts and acknowledgements coincide, a (client, sequence) was
      received at most once and its payloads delivered once each, `write_acknowledgement` is refused,
      and a second receive is refused. */
  lemma ReceivedAtMostOnce(sha: Hash, admin: Address, txs: seq<Tx>, key: SeqKey, env: Env, p: Packet, acks: seq<Bytes>,
                           proof: Bytes, height: U64)
    ensures var st := Run(sha, Initial(admin), txs);
            && st.receipts == st.acks.Keys
            && Count(st.events, Received, key) == (if key in st.receipts then 1 else 0)
            && CallCount(st.calls, Received, key)
               == (if key in st.receipts then |Last(st.events, Received, key).value.packet.payloads| else 0)
            && WriteAcknowledgement(sha, st, key.0, key.1, acks).Err?
            && (key in st.receipts && (p.destClient, p.sequence) == key ==> Recv(sha, st, env, p, proof, height).Err?)
  {
    InitialInv(sha, admin);
    RunKeeps(sha, Initial(admin), txs);
    var st := Run(sha, Initial(admin), txs);
    assert KeyInv(sha, st, key);
    forall k: SeqKey ensures k in st.receipts <==> k in st.acks.Keys {
      assert KeyInv(sha, st, k);
    }
  }

  lemma SendAuthorised(sha: Hash, st: State, env: Env, client: Bytes, timeout: U64, payloads: seq<Payload>, payload: Payload)
    requires Send(sha, st, env, client, timeout, payloads).Ok? && payload in payloads
    ensures payload.sourcePort in st.port && st.port[payload.sourcePort] in env.auth
  {
    var j :| 0 <= j < |payloads| && payloads[j] == payload;
    assert AuthError(st.port, env, payloads) == None;
  }

  lemma CallHome(sha: Hash, st: State, c: Call)
    requires Inv(sha, st) && c in st.calls && !c.OnRecv?
    ensures c.payload.sourcePort in st.port && c.app == st.port[c.payload.sourcePort]
  {
    var i :| 0 <= i < |st.calls| && st.calls[i] == c;
  }

  lemma CallAfterSend(sha: Hash, st: State, env: Env, client: Bytes, timeout: U64, payloads: seq<Payload>, end: State, c: Call)
    requires Send(sha, st, env, client, timeout, payloads).Ok? && Keeps(st.port, end.port)
    requires Inv(sha, end) && c in end.calls && !c.OnRecv? && c.payload in payloads
    ensures c.app in env.auth
  {
    CallHome(sha, end, c);
    SendAuthorised(sha, st, env, client, timeout, payloads, c.payload);
  }

  lemma RunContinues(sha: Hash, st0: State, xs: seq<Tx>, ys: seq<Tx>, st: State, end: State)
    requires Inv(sha, st0) && st == Run(sha, st0, xs) && end == Run(sha, st0, xs + ys)
    ensures Inv(sha, end) && Keeps(st.port, end.port)
  {
    PortsKept(sha, st0, xs);
    RunSplit(sha, st0, xs, ys);
    PortsKept(sha, st, ys);
  }

  lemma PortsKept(sha: Hash, st: State, txs: seq<Tx>)
    requires Inv(sha, st)
    ensures Inv(sha, Run(sha, st, txs)) && Keeps(st.port, Run(sha, st, txs).port)
  {
    RunKeeps(sha, st, txs);
  }

  /** Settlement callbacks go to the application that authorised the send: a payload sent by
      transaction `i` of a run comes back, whenever it does, to an application among the
      authorisations of that transaction. */
  lemma CallbacksReachTheSender(sha: Hash, admin: Address, txs: seq<Tx>, i: nat, c: Call)
    requires i < |txs| && txs[i].action.DoSend?
    requires Exec(sha, Run(sha, Initial(admin), txs[..i]), txs[i].env, txs[i].action).Ok?
    requires c in Run(sha, Initial(admin), txs).calls && !c.OnRecv? && c.payload in txs[i].action.payloads
    ensures c.app in txs[i].env.auth
  {
    InitialInv(sha, admin);
    var st, end, a := Run(sha, Initial(admin), txs[..i]), Run(sha, Initial(admin), txs), txs[i].action;
    assert txs == txs[..i] + txs[i..];
    RunContinues(sha, Initial(admin), txs[..i], txs[i..], st, end);
    assert Send(sha, st, txs[i].env, a.client, a.timeout, a.payloads).Ok?;
    CallAfterSend(sha, st, txs[i].env, a.client, a.timeout, a.payloads, end, c);
  }
}
