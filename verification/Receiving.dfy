/** Exactly when the router sends, receives and registers, and with what result. */
module Receiving {
  import opened Prelude
  import opened Paths
  import opened Commitments
  import opened ClientIds
  import opened Router
  import opened RouterRuns
  import opened Settleable
  import RC = RouterContract

  // ---------------------------------------------------------------- dispatching

  /** Payload `i` is delivered: its port is known and its application replies. */
  predicate Delivers(port: map<Bytes, Address>, env: Env, p: Packet, i: nat)
    requires i < |p.payloads|
  {
    p.payloads[i].destPort in port && env.reply(i).Some?
  }

  /** The error of the first payload that is not delivered. */
  ghost predicate FirstFailure(port: map<Bytes, Address>, env: Env, p: Packet, k: nat, i: nat, e: Error)
    requires k <= |p.payloads|
  {
    && i < k && !Delivers(port, env, p, i)
    && (forall j :: 0 <= j < i ==> Delivers(port, env, p, j))
    && e == (if p.payloads[i].destPort !in port then PortNotRegistered else Trap)
  }

  /** The dispatch succeeds exactly when every payload is delivered, and otherwise fails with the error of
      the first that is not. */
  lemma {:induction false} RecvDispatch(port: map<Bytes, Address>, env: Env, p: Packet, k: nat)
    requires k <= |p.payloads|
    ensures var r := RecvCalls(port, env, p, k);
            && (r.Ok? <==> forall i :: 0 <= i < k ==> Delivers(port, env, p, i))
            && (r.Err? ==> exists i :: FirstFailure(port, env, p, k, i, r.error))
  {
    if k > 0 {
      RecvDispatch(port, env, p, k - 1);
      var before, r := RecvCalls(port, env, p, k - 1), RecvCalls(port, env, p, k);
      if before.Err? {
        var i :| FirstFailure(port, env, p, k - 1, i, before.error);
        assert FirstFailure(port, env, p, k, i, r.error);
      } else if r.Err? {
        assert FirstFailure(port, env, p, k, k - 1, r.error);
      }
    }
  }

  // ---------------------------------------------------------------- receiving

  /** Everything a receive depends on. */
  ghost predicate CanReceive(sha: Hash, st: State, env: Env, p: Packet, proof: Bytes, height: U64) {
    && p.destClient in st.counterparty && st.counterparty[p.destClient].clientId == p.sourceClient
    && p.destClient in st.lcAddr
    && env.time < p.timeout
    && |p.destClient| <= 119 && |p.sourceClient| <= 119 && Committable(p)
    && Count(st.events, Received, (p.destClient, p.sequence)) == 0
    && env.lc.member(Query(st.lcAddr[p.destClient], p.destClient, height, proof,
                           Concat(st.counterparty[p.destClient].prefix) + Key(Path(p.sourceClient, PacketCommitment, p.sequence))),
                     CommitPacket(sha, p)) == Accepted
    && forall i :: 0 <= i < |p.payloads| ==> Delivers(st.port, env, p, i)
  }

  /** The acknowledgements written: the replies in order, or the error acknowledgement for no payloads. */
  ghost predicate Acknowledges(sha: Hash, env: Env, p: Packet, acks: seq<Bytes>) {
    if p.payloads == [] then acks == [sha(ERROR_ACK_PREIMAGE)]
    else |acks| == |p.payloads| && forall i :: 0 <= i < |acks| ==> env.reply(i) == Some(acks[i])
  }

  /** In every reachable state: a packet is received exactly when its clients name each other's ends, its
      timeout lies ahead, it was not received before, its commitment is proved and every payload is
      delivered; then a receipt, the commitment of the replies and one call per payload are recorded. */
  lemma ReceivedExactly(sha: Hash, admin: Address, txs: seq<Tx>, env: Env, p: Packet, proof: Bytes, height: U64)
    ensures var st := Run(sha, Initial(admin), txs);
            var r := Recv(sha, st, env, p, proof, height);
            && (r.Ok? <==> CanReceive(sha, st, env, p, proof, height))
            && (r.Ok? ==> exists acks, calls :: Recorded(sha, st, env, p, acks, calls, r.value))
  {
    var st := Run(sha, Initial(admin), txs);
    var key := (p.destClient, p.sequence);
    Reachable(sha, admin, txs);
    assert KeyInv(sha, st, key);
    RecvDispatch(st.port, env, p, |p.payloads|);
    ReceiveNeeds(sha, st, env, p, proof, height);
    if Recv(sha, st, env, p, proof, height).Ok? {
      ReceptionRecords(sha, st, env, p, proof, height);
    }
  }

  lemma ReceiveNeeds(sha: Hash, st: State, env: Env, p: Packet, proof: Bytes, height: U64)
    requires IdsMinted(st)
    requires (p.destClient, p.sequence) in st.receipts <==> Count(st.events, Received, (p.destClient, p.sequence)) > 0
    requires RecvCalls(st.port, env, p, |p.payloads|).Ok? <==> forall i :: 0 <= i < |p.payloads| ==> Delivers(st.port, env, p, i)
    ensures Recv(sha, st, env, p, proof, height).Ok? <==> CanReceive(sha, st, env, p, proof, height)
  {
    ChecksMean(sha, st, env, p, proof, height);
    if RC.Receivable(sha, st, env, p, proof, height) {
      RC.RecvAfterChecks(sha, st, env, p, proof, height);
    } else if Recv(sha, st, env, p, proof, height).Ok? {
      ChecksNeeded(sha, st, env, p, proof, height);
    }
  }

  lemma ChecksNeeded(sha: Hash, st: State, env: Env, p: Packet, proof: Bytes, height: U64)
    requires Recv(sha, st, env, p, proof, height).Ok?
    ensures RC.Receivable(sha, st, env, p, proof, height)
  {
  }

  lemma ChecksMean(sha: Hash, st: State, env: Env, p: Packet, proof: Bytes, height: U64)
    requires IdsMinted(st)
    requires (p.destClient, p.sequence) in st.receipts <==> Count(st.events, Received, (p.destClient, p.sequence)) > 0
    ensures CanReceive(sha, st, env, p, proof, height)
       <==> RC.Receivable(sha, st, env, p, proof, height) && forall i :: 0 <= i < |p.payloads| ==> Delivers(st.port, env, p, i)
  {
  }

  ghost predicate Recorded(sha: Hash, st: State, env: Env, p: Packet, acks: seq<Bytes>, calls: seq<Call>, st': State) {
    var key := (p.destClient, p.sequence);
    && Acknowledges(sha, env, p, acks)
    && |calls| == |p.payloads|
    && (forall i :: 0 <= i < |calls| ==>
          && p.payloads[i].destPort in st.port && env.reply(i).Some?
          && calls[i] == OnRecv(st.port[p.payloads[i].destPort], p.sourceClient, p.destClient, p.sequence,
                                p.payloads[i], env.reply(i).value))
    && st' == st.(receipts := st.receipts + {key}, acks := st.acks[key := CommitAck(sha, acks)],
                  calls := st.calls + calls,
                  events := st.events + [RecvPacket(p), WriteAck(p.destClient, p.sequence, acks)])
  }

  lemma AcksAreReplies(sha: Hash, port: map<Bytes, Address>, env: Env, p: Packet, calls: seq<Call>)
    requires RecvCalls(port, env, p, |p.payloads|) == Ok(calls)
    ensures Acknowledges(sha, env, p, AcksOf(sha, calls))
  {
    AcksFitCalls(sha, port, env, p, calls);
  }

  lemma ReceptionRecords(sha: Hash, st: State, env: Env, p: Packet, proof: Bytes, height: U64)
    requires Recv(sha, st, env, p, proof, height).Ok?
    ensures exists acks, calls :: Recorded(sha, st, env, p, acks, calls, Recv(sha, st, env, p, proof, height).value)
  {
    ChecksNeeded(sha, st, env, p, proof, height);
    RC.RecvAfterChecks(sha, st, env, p, proof, height);
    var calls := RecvCalls(st.port, env, p, |p.payloads|).value;
    AcksAreReplies(sha, st.port, env, p, calls);
    assert Recorded(sha, st, env, p, AcksOf(sha, calls), calls, Recv(sha, st, env, p, proof, height).value);
  }

  // ---------------------------------------------------------------- settling

  /** An acknowledgement takes the commitment away and hands every payload, in order and at the application of its
      source port, its acknowledgement, or the error acknowledgement when there is none for it. */
  lemma AcknowledgementRecords(sha: Hash, st: State, env: Env, p: Packet, acks: seq<Bytes>, proof: Bytes, height: U64)
    requires Acknowledge(sha, st, env, p, acks, proof, height).Ok?
    ensures var st' := Acknowledge(sha, st, env, p, acks, proof, height).value;
            && st'.commitments == st.commitments - {(p.sourceClient, p.sequence)}
            && st'.events == st.events + [AckPacket(p, acks)]
            && |st'.calls| == |st.calls| + |p.payloads| && st.calls <= st'.calls
            && forall i :: 0 <= i < |p.payloads| ==>
                 && p.payloads[i].sourcePort in st.port
                 && st'.calls[|st.calls| + i] == OnAck(st.port[p.payloads[i].sourcePort], p.sourceClient, p.destClient, p.sequence,
                                                       p.payloads[i], if i < |acks| then acks[i] else sha(ERROR_ACK_PREIMAGE))
  {
    AcknowledgeSettles(sha, st, env, p, acks, proof, height);
    var calls := AckCalls(sha, st.port, env, p, acks, |p.payloads|).value;
    assert Acknowledge(sha, st, env, p, acks, proof, height).value.calls == st.calls + calls;
  }

  lemma TimeoutRecords(sha: Hash, st: State, env: Env, p: Packet, proof: Bytes, height: U64)
    requires Timeout(sha, st, env, p, proof, height).Ok?
    ensures var st' := Timeout(sha, st, env, p, proof, height).value;
            && st'.commitments == st.commitments - {(p.sourceClient, p.sequence)}
            && st'.events == st.events + [TimeoutPacket(p)]
            && |st'.calls| == |st.calls| + |p.payloads| && st.calls <= st'.calls
            && forall i :: 0 <= i < |p.payloads| ==>
                 && p.payloads[i].sourcePort in st.port
                 && st'.calls[|st.calls| + i] == OnTimeout(st.port[p.payloads[i].sourcePort], p.sourceClient, p.destClient, p.sequence,
                                                           p.payloads[i])
  {
    TimeoutSettles(sha, st, env, p, proof, height);
    var calls := TimeoutCalls(st.port, env, p, |p.payloads|).value;
    assert Timeout(sha, st, env, p, proof, height).value.calls == st.calls + calls;
  }

  // ---------------------------------------------------------------- sending

  /** Everything a send depends on. */
  ghost predicate CanSend(st: State, env: Env, client: Bytes, timeout: U64, payloads: seq<Payload>) {
    && payloads != [] && client in st.counterparty && env.time < timeout
    && (forall i :: 0 <= i < |payloads| ==> payloads[i].sourcePort in st.port && st.port[payloads[i].sourcePort] in env.auth)
    && NextSeq(st, client) < U64_MAX && |client| <= 119
    && |st.counterparty[client].clientId| <= 256
    && (forall i :: 0 <= i < |payloads| ==>
          |payloads[i].sourcePort| <= 256 && |payloads[i].destPort| <= 256 && |payloads[i].version| <= 256 && |payloads[i].encoding| <= 256)
  }

  /** A packet is sent exactly when it has payloads, its client has a counterparty, its timeout lies ahead,
      every source port is known and its application authorised the send, and every string fits; then it
      carries what was asked for, under the next sequence of its client. */
  lemma SentExactly(sha: Hash, st: State, env: Env, client: Bytes, timeout: U64, payloads: seq<Payload>)
    ensures var r := Send(sha, st, env, client, timeout, payloads);
            && (r.Ok? <==> CanSend(st, env, client, timeout, payloads))
            && (r.Ok? ==>
                  var p := Packet(NextSeq(st, client) + 1, client, st.counterparty[client].clientId, timeout, payloads);
                  Sending(sha, st, p, r.value))
  {
    if client in st.counterparty && NextSeq(st, client) < U64_MAX {
      CommittableMeans(Packet(NextSeq(st, client) + 1, client, st.counterparty[client].clientId, timeout, payloads));
    }
  }

  lemma CommittableMeans(p: Packet)
    ensures Committable(p) <==>
      && |p.destClient| <= 256
      && forall i :: 0 <= i < |p.payloads| ==>
           && |p.payloads[i].sourcePort| <= 256 && |p.payloads[i].destPort| <= 256
           && |p.payloads[i].version| <= 256 && |p.payloads[i].encoding| <= 256
  {
  }

  // ---------------------------------------------------------------- refusals name their reason

  lemma SendRefusals(sha: Hash, st: State, env: Env, client: Bytes, timeout: U64, payloads: seq<Payload>)
    ensures var r := Send(sha, st, env, client, timeout, payloads);
            r.Err? ==>
              && (r.error == PayloadsEmpty ==> payloads == [])
              && (r.error == CounterpartyNotRegistered ==> client !in st.counterparty)
              && (r.error == TimeoutAlreadyElapsed ==> timeout <= env.time)
              && (r.error == PortNotRegistered ==> exists i :: 0 <= i < |payloads| && payloads[i].sourcePort !in st.port)
              && r.error in {PayloadsEmpty, CounterpartyNotRegistered, TimeoutAlreadyElapsed, PortNotRegistered, Trap}
  {
    AuthErrorMeans(st.port, env, payloads);
  }

  lemma {:induction false} AuthErrorMeans(port: map<Bytes, Address>, env: Env, payloads: seq<Payload>)
    ensures var e := AuthError(port, env, payloads);
            e.Some? ==>
              && e.value in {PortNotRegistered, Trap}
              && (e.value == PortNotRegistered ==> exists i :: 0 <= i < |payloads| && payloads[i].sourcePort !in port)
    decreases |payloads|
  {
    if |payloads| > 0 {
      AuthErrorMeans(port, env, payloads[1..]);
      var e := AuthError(port, env, payloads);
      if e == Some(PortNotRegistered) && payloads[0].sourcePort in port {
        var i :| 0 <= i < |payloads[1..]| && payloads[1..][i].sourcePort !in port;
        assert payloads[i + 1].sourcePort !in port;
      }
    }
  }

  /** What the error of a receive says about the state and the packet. */
  ghost predicate RecvReason(st: State, env: Env, p: Packet, e: Error) {
    match e
    case CounterpartyNotRegistered => p.destClient !in st.counterparty
    case PacketCounterpartyMismatch => p.destClient in st.counterparty && st.counterparty[p.destClient].clientId != p.sourceClient
    case TimeoutAlreadyElapsed => p.timeout <= env.time
    case ReceiptAlreadyExists => (p.destClient, p.sequence) in st.receipts
    case ClientIdNotFound => p.destClient !in st.lcAddr
    case PortNotRegistered => exists i :: 0 <= i < |p.payloads| && p.payloads[i].destPort !in st.port
    case MembershipVerificationFailed => p.destClient in st.lcAddr
    case Trap => true
    case _ => false
  }

  lemma RecvRefusals(sha: Hash, st: State, env: Env, p: Packet, proof: Bytes, height: U64)
    ensures var r := Recv(sha, st, env, p, proof, height);
            r.Err? ==> RecvReason(st, env, p, r.error)
  {
    if RC.Receivable(sha, st, env, p, proof, height) {
      RC.RecvAfterChecks(sha, st, env, p, proof, height);
      DispatchRefusals(st, env, p);
    } else {
      CheckRefusals(sha, st, env, p, proof, height);
    }
  }

  lemma DispatchRefusals(st: State, env: Env, p: Packet)
    ensures var r := RecvCalls(st.port, env, p, |p.payloads|);
            r.Err? ==> RecvReason(st, env, p, r.error)
  {
    RecvDispatch(st.port, env, p, |p.payloads|);
    var r := RecvCalls(st.port, env, p, |p.payloads|);
    if r.Err? {
      var i :| FirstFailure(st.port, env, p, |p.payloads|, i, r.error);
    }
  }

  lemma CheckRefusals(sha: Hash, st: State, env: Env, p: Packet, proof: Bytes, height: U64)
    requires !RC.Receivable(sha, st, env, p, proof, height)
    ensures var r := Recv(sha, st, env, p, proof, height);
            r.Err? && RecvReason(st, env, p, r.error)
  {
  }

  lemma SettleRefusals(sha: Hash, st: State, p: Packet)
    ensures var e := SettleError(sha, st, p);
            e.Some? ==>
              && (e.value == NoCommitmentForSequence ==> (p.sourceClient, p.sequence) !in st.commitments)
              && (e.value == CommitmentMismatch ==>
                    (p.sourceClient, p.sequence) in st.commitments && st.commitments[(p.sourceClient, p.sequence)] != CommitPacket(sha, p))
              && (e.value == CounterpartyNotRegistered ==> p.sourceClient !in st.counterparty)
              && (e.value == PacketCounterpartyMismatch ==>
                    p.sourceClient in st.counterparty && st.counterparty[p.sourceClient].clientId != p.destClient)
              && e.value in {NoCommitmentForSequence, CommitmentMismatch, CounterpartyNotRegistered, PacketCounterpartyMismatch, Trap}
  {
  }

  /** A packet that passes the common checks is refused an acknowledgement or a timeout for these reasons only. */
  lemma ProofRefusals(sha: Hash, st: State, env: Env, p: Packet, acks: seq<Bytes>, proof: Bytes, height: U64)
    requires SettleError(sha, st, p) == None && p.sourceClient in st.lcAddr && PortsKnown(st.port, p)
    ensures var r := Acknowledge(sha, st, env, p, acks, proof, height);
            r.Err? ==> r.error in {MembershipVerificationFailed, Trap}
    ensures var r := Timeout(sha, st, env, p, proof, height);
            var time := env.lc.timestamp(st.lcAddr[p.sourceClient], p.sourceClient, height);
            r.Err? ==>
              && (r.error == TimeoutNotYetElapsed <==> time.Some? && time.value <= p.timeout)
              && r.error in {TimeoutNotYetElapsed, NonMembershipVerificationFailed, Trap}
  {
    AckCallsTrap(sha, st.port, env, p, acks, |p.payloads|);
    TimeoutCallsTrap(st.port, env, p, |p.payloads|);
  }

  lemma {:induction false} AckCallsTrap(sha: Hash, port: map<Bytes, Address>, env: Env, p: Packet, acks: seq<Bytes>, k: nat)
    requires PortsKnown(port, p) && k <= |p.payloads|
    ensures AckCalls(sha, port, env, p, acks, k).Err? ==> AckCalls(sha, port, env, p, acks, k).error == Trap
  {
    if k > 0 {
      AckCallsTrap(sha, port, env, p, acks, k - 1);
    }
  }

  lemma {:induction false} TimeoutCallsTrap(port: map<Bytes, Address>, env: Env, p: Packet, k: nat)
    requires PortsKnown(port, p) && k <= |p.payloads|
    ensures TimeoutCalls(port, env, p, k).Err? ==> TimeoutCalls(port, env, p, k).error == Trap
  {
    if k > 0 {
      TimeoutCallsTrap(port, env, p, k - 1);
    }
  }
}
