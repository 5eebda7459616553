/** Which sent packets can still be settled, and which are stuck for good. */
module Settleable {
  import opened Prelude
  import opened Paths
  import opened Commitments
  import opened ClientIds
  import opened Router
  import opened RouterRuns

  // ---------------------------------------------------------------- what sending establishes for good

  /** Everything `SettleError` and the dispatch loops ask of a packet, apart from its commitment. */
  ghost predicate SentThrough(st: State, p: Packet) {
    && p.sourceClient in st.counterparty && st.counterparty[p.sourceClient].clientId == p.destClient
    && p.sourceClient in st.lcAddr
    && Committable(p) && Fits(p.sourceClient)
    && PortsKnown(st.port, p)
  }

  ghost predicate PortsKnown(port: map<Bytes, Address>, p: Packet) {
    forall i :: 0 <= i < |p.payloads| ==> p.payloads[i].sourcePort in port
  }

  ghost predicate AllSentThrough(st: State) {
    forall p :: SendPacket(p) in st.events ==> SentThrough(st, p)
  }

  lemma SentThroughStands(st: State, st': State, p: Packet)
    requires SentThrough(st, p) && Evolves(st, st')
    ensures SentThrough(st', p)
  {
  }

  lemma NewSendIsSentThrough(sha: Hash, st: State, env: Env, client: Bytes, timeout: U64, payloads: seq<Payload>)
    requires IdsMinted(st) && Send(sha, st, env, client, timeout, payloads).Ok?
    ensures SentThrough(st, Packet(NextSeq(st, client) + 1, client, st.counterparty[client].clientId, timeout, payloads))
  {
    forall i | 0 <= i < |payloads| ensures payloads[i].sourcePort in st.port {
      SendAuthorised(sha, st, env, client, timeout, payloads, payloads[i]);
    }
  }

  /** Only `send_packet` publishes a sent packet. */
  lemma OnlySendSends(sha: Hash, st: State, env: Env, a: Action, p: Packet)
    requires Exec(sha, st, env, a).Ok?
    requires SendPacket(p) in Exec(sha, st, env, a).value.events && SendPacket(p) !in st.events
    ensures a.DoSend?
    ensures p == Packet(NextSeq(st, a.client) + 1, a.client, st.counterparty[a.client].clientId, a.timeout, a.payloads)
  {
    match a
    case DoSend(client, timeout, payloads) => SendSends(sha, st, env, client, timeout, payloads);
    case DoRecv(q, proof, height) => RecvReceives(sha, st, env, q, proof, height);
    case DoAcknowledge(q, acks, proof, height) => AcknowledgeSettles(sha, st, env, q, acks, proof, height);
    case DoTimeout(q, proof, height) => TimeoutSettles(sha, st, env, q, proof, height);
    case _ =>
  }

  lemma ExecKeepsSentThrough(sha: Hash, st: State, env: Env, a: Action)
    requires Inv(sha, st) && AllSentThrough(st) && Exec(sha, st, env, a).Ok?
    ensures AllSentThrough(Exec(sha, st, env, a).value)
  {
    var st' := Exec(sha, st, env, a).value;
    ExecKeeps(sha, st, env, a);
    forall p | SendPacket(p) in st'.events && SendPacket(p) !in st.events ensures SentThrough(st, p) {
      FreshSendIsSentThrough(sha, st, env, a, p);
    }
    SentThroughGrows(st, st');
  }

  lemma SentThroughGrows(st: State, st': State)
    requires AllSentThrough(st) && Evolves(st, st')
    requires forall p :: SendPacket(p) in st'.events && SendPacket(p) !in st.events ==> SentThrough(st, p)
    ensures AllSentThrough(st')
  {
    forall p | SendPacket(p) in st'.events ensures SentThrough(st', p) {
      SentThroughStands(st, st', p);
    }
  }

  lemma FreshSendIsSentThrough(sha: Hash, st: State, env: Env, a: Action, p: Packet)
    requires IdsMinted(st) && Exec(sha, st, env, a).Ok?
    requires SendPacket(p) in Exec(sha, st, env, a).value.events && SendPacket(p) !in st.events
    ensures SentThrough(st, p)
  {
    OnlySendSends(sha, st, env, a, p);
    NewSendIsSentThrough(sha, st, env, a.client, a.timeout, a.payloads);
  }

  lemma {:induction false} RunKeepsSentThrough(sha: Hash, st: State, txs: seq<Tx>)
    requires Inv(sha, st) && AllSentThrough(st)
    ensures AllSentThrough(Run(sha, st, txs))
  {
    if |txs| > 0 {
      var mid, tx := Run(sha, st, txs[..|txs| - 1]), txs[|txs| - 1];
      RunKeepsSentThrough(sha, st, txs[..|txs| - 1]);
      RunKeeps(sha, st, txs[..|txs| - 1]);
      if Exec(sha, mid, tx.env, tx.action).Ok? {
        ExecKeepsSentThrough(sha, mid, tx.env, tx.action);
      }
    }
  }

  // ---------------------------------------------------------------- when a live packet settles

  /** The packet was sent and its commitment is still there. */
  ghost predicate Live(st: State, p: Packet) {
    var key := (p.sourceClient, p.sequence);
    key in st.commitments && Last(st.events, Sent, key) == Some(SendPacket(p))
  }

  ghost predicate AllSettle(env: Env, p: Packet) {
    forall i :: 0 <= i < |p.payloads| ==> env.settles(i)
  }

  lemma {:induction false} AckDispatch(sha: Hash, port: map<Bytes, Address>, env: Env, p: Packet, acks: seq<Bytes>, k: nat)
    requires PortsKnown(port, p) && k <= |p.payloads|
    ensures AckCalls(sha, port, env, p, acks, k).Ok? <==> forall i :: 0 <= i < k ==> env.settles(i)
  {
    if k > 0 {
      AckDispatch(sha, port, env, p, acks, k - 1);
    }
  }

  lemma {:induction false} TimeoutDispatch(port: map<Bytes, Address>, env: Env, p: Packet, k: nat)
    requires PortsKnown(port, p) && k <= |p.payloads|
    ensures TimeoutCalls(port, env, p, k).Ok? <==> forall i :: 0 <= i < k ==> env.settles(i)
  {
    if k > 0 {
      TimeoutDispatch(port, env, p, k - 1);
    }
  }

  lemma LivePassesChecks(sha: Hash, st: State, p: Packet)
    requires Inv(sha, st) && AllSentThrough(st) && Live(st, p)
    ensures SettleError(sha, st, p) == None && SentThrough(st, p)
  {
    var key := (p.sourceClient, p.sequence);
    assert KeyInv(sha, st, key);
    assert SendPacket(p) in st.events;
  }

  function PathOf(st: State, p: Packet, kind: Kind): Bytes
    requires p.sourceClient in st.counterparty
  {
    CounterpartyKey(st.counterparty[p.sourceClient].prefix, Path(p.destClient, kind, p.sequence))
  }

  /** In every reachable state, a live packet is acknowledged exactly when its destination id
      leaves room in the path buffer, the light client accepts the proof at the counterparty's
      acknowledgement path, and its applications return. */
  lemma AcknowledgedExactly(sha: Hash, admin: Address, txs: seq<Tx>, env: Env, p: Packet, acks: seq<Bytes>, proof: Bytes, height: U64)
    requires Live(Run(sha, Initial(admin), txs), p)
    ensures var st := Run(sha, Initial(admin), txs);
            && p.sourceClient in st.counterparty && p.sourceClient in st.lcAddr
            && (Acknowledge(sha, st, env, p, acks, proof, height).Ok? <==>
                  && Fits(p.destClient) && AllSettle(env, p)
                  && env.lc.member(Query(st.lcAddr[p.sourceClient], p.sourceClient, height, proof, PathOf(st, p, AckCommitment)),
                                   CommitAck(sha, acks)) == Accepted)
  {
    var st := Run(sha, Initial(admin), txs);
    Reachable(sha, admin, txs);
    LivePassesChecks(sha, st, p);
    AckDispatch(sha, st.port, env, p, acks, |p.payloads|);
  }

  /** A live packet is timed out exactly when, moreover, the proof's timestamp is past the
      timeout and the absence of the receipt is proved. */
  lemma TimedOutExactly(sha: Hash, admin: Address, txs: seq<Tx>, env: Env, p: Packet, proof: Bytes, height: U64)
    requires Live(Run(sha, Initial(admin), txs), p)
    ensures var st := Run(sha, Initial(admin), txs);
            && p.sourceClient in st.counterparty && p.sourceClient in st.lcAddr
            && (Timeout(sha, st, env, p, proof, height).Ok? <==>
                  && Fits(p.destClient) && AllSettle(env, p)
                  && PastTimeout(env.lc.timestamp(st.lcAddr[p.sourceClient], p.sourceClient, height), p.timeout)
                  && env.lc.nonMember(Query(st.lcAddr[p.sourceClient], p.sourceClient, height, proof,
                                            PathOf(st, p, PacketReceipt))) == Accepted)
  {
    var st := Run(sha, Initial(admin), txs);
    Reachable(sha, admin, txs);
    LivePassesChecks(sha, st, p);
    TimeoutDispatch(st.port, env, p, |p.payloads|);
  }

  predicate PastTimeout(proofTime: Option<U64>, timeout: U64) {
    proofTime.Some? && proofTime.value > timeout
  }

  lemma Reachable(sha: Hash, admin: Address, txs: seq<Tx>)
    ensures Inv(sha, Run(sha, Initial(admin), txs)) && AllSentThrough(Run(sha, Initial(admin), txs))
  {
    InitialInv(sha, admin);
    RunKeeps(sha, Initial(admin), txs);
    RunKeepsSentThrough(sha, Initial(admin), txs);
  }

  // ---------------------------------------------------------------- when no settlement is possible

  const WILLING := LightClients((_, _) => Accepted, _ => Accepted, (_, _, _) => Some(U64_MAX), Some(false), true, 0)

  /** The most favourable environment: every proof is accepted, every callback returns. */
  function BestCase(): Env {
    Env(0, {}, WILLING, _ => None, _ => true)
  }

  /** A live packet can be acknowledged in some environment if and only if its destination id has
      at most 119 bytes, and timed out if and only if, besides, its timeout is not the largest
      64-bit number. Counterparty registration admits ids of up to 128 bytes and sending any
      timeout, so packets exist that can never be settled. */
  lemma SettleableExactly(sha: Hash, admin: Address, txs: seq<Tx>, p: Packet)
    requires Live(Run(sha, Initial(admin), txs), p)
    ensures var st := Run(sha, Initial(admin), txs);
            && ((exists env, acks, proof, height :: Acknowledge(sha, st, env, p, acks, proof, height).Ok?)
                  <==> |p.destClient| <= 119)
            && ((exists env, proof, height :: Timeout(sha, st, env, p, proof, height).Ok?)
                  <==> |p.destClient| <= 119 && p.timeout != U64_MAX)
  {
    var st := Run(sha, Initial(admin), txs);
    forall env, acks, proof, height | Acknowledge(sha, st, env, p, acks, proof, height).Ok? ensures |p.destClient| <= 119 {
      AcknowledgedExactly(sha, admin, txs, env, p, acks, proof, height);
    }
    forall env, proof, height | Timeout(sha, st, env, p, proof, height).Ok?
      ensures |p.destClient| <= 119 && p.timeout != U64_MAX
    {
      TimedOutExactly(sha, admin, txs, env, p, proof, height);
    }
    AcknowledgedExactly(sha, admin, txs, BestCase(), p, [], [], 0);
    TimedOutExactly(sha, admin, txs, BestCase(), p, [], 0);
  }

  lemma {:induction false} StuckRun(sha: Hash, st: State, more: seq<Tx>, p: Packet)
    requires Inv(sha, st) && AllSentThrough(st) && Live(st, p) && !Fits(p.destClient)
    ensures Live(Run(sha, st, more), p)
  {
    if |more| > 0 {
      var earlier, tx := more[..|more| - 1], more[|more| - 1];
      var mid := Run(sha, st, earlier);
      StuckRun(sha, st, earlier, p);
      RunKeeps(sha, st, earlier);
      RunKeepsSentThrough(sha, st, earlier);
      if Exec(sha, mid, tx.env, tx.action).Ok? {
        StuckStep(sha, mid, tx.env, tx.action, p);
      }
    }
  }

  /** A packet for a longer destination id stays unsettled over every continuation of the run. */
  lemma StuckForGood(sha: Hash, admin: Address, txs: seq<Tx>, more: seq<Tx>, p: Packet)
    requires Live(Run(sha, Initial(admin), txs), p) && !Fits(p.destClient)
    ensures var st := Run(sha, Initial(admin), txs + more);
            Live(st, p) && Count(st.events, Settled, (p.sourceClient, p.sequence)) == 0
  {
    Reachable(sha, admin, txs);
    StuckRun(sha, Run(sha, Initial(admin), txs), more, p);
    RunSplit(sha, Initial(admin), txs, more);
    Reachable(sha, admin, txs + more);
    assert KeyInv(sha, Run(sha, Initial(admin), txs + more), (p.sourceClient, p.sequence));
  }

  /** Whoever presents whatever under the sequence, the commitment survives the step, unless the
      packet presented names another destination than the one registered, which is refused. */
  lemma StuckStep(sha: Hash, st: State, env: Env, a: Action, p: Packet)
    requires Inv(sha, st) && AllSentThrough(st) && Live(st, p) && !Fits(p.destClient)
    requires Exec(sha, st, env, a).Ok?
    ensures Live(Exec(sha, st, env, a).value, p)
  {
    var st' := Exec(sha, st, env, a).value;
    var key := (p.sourceClient, p.sequence);
    LivePassesChecks(sha, st, p);
    assert KeyInv(sha, st, key);
    ExecKeeps(sha, st, env, a);
    assert KeyInv(sha, st', key);
    OccursIsCounted(st'.events, SendPacket(p), Sent, key);
    SurvivesStep(sha, st, env, a, p);
  }

  lemma SurvivesStep(sha: Hash, st: State, env: Env, a: Action, p: Packet)
    requires SentThrough(st, p) && (p.sourceClient, p.sequence) in st.commitments && !Fits(p.destClient)
    requires Exec(sha, st, env, a).Ok?
    ensures (p.sourceClient, p.sequence) in Exec(sha, st, env, a).value.commitments
  {
  }

  /** 120 letters: too long for a path, and a valid identifier. */
  function LongId(): (id: Bytes)
    ensures |id| == 120 && !Fits(id) && Validate(id) == None
  {
    var id: Bytes := seq(120, _ => 97);
    assert id[0] == 97 && CHANNEL_PREFIX[0] == 99 && CLIENT_PREFIX[0] == 99;
    id
  }

  /** Such ids can be registered. */
  lemma LongCounterpartyAccepted(st: State, client: Bytes)
    requires client in st.clientType && client !in st.counterparty
    ensures !Fits(LongId()) && RegisterCounterparty(st, client, LongId(), []).Ok?
  {
  }
}
