/** The IBC v2 router as a transition function: registration and the packet lifecycle. */
module Router {
  import opened Prelude
  import opened Paths
  import opened Commitments
  import opened ClientIds

  type Address = nat

  datatype Error =
    | UnknownClientType | ClientIdNotFound | CounterpartyAlreadyRegistered | ClientFrozen
    | PortAlreadyRegistered | InvalidIdentifier(why: IdentifierError)
    | CounterpartyNotRegistered | TimeoutAlreadyElapsed | PortNotRegistered | PayloadsEmpty
    | ReceiptAlreadyExists | PacketCounterpartyMismatch
    | MembershipVerificationFailed | NonMembershipVerificationFailed
    | NoCommitmentForSequence | CommitmentMismatch | AckAlreadyExists | NoReceiptForSequence
    | TimeoutNotYetElapsed
    // The host aborts: missing authorisation, a called contract panics, a buffer or a counter overflows.
    | Trap

  datatype Counterparty = Counterparty(clientId: Bytes, prefix: seq<Bytes>)

  /** Published events, in order. */
  datatype Event =
    | SendPacket(packet: Packet)
    | RecvPacket(packet: Packet)
    | WriteAck(client: Bytes, sequence: U64, acks: seq<Bytes>)
    | AckPacket(packet: Packet, acks: seq<Bytes>)
    | TimeoutPacket(packet: Packet)

  /** Callbacks made into application contracts, in order. */
  datatype Call =
    | OnRecv(app: Address, sourceClient: Bytes, destClient: Bytes, sequence: U64, payload: Payload, reply: Bytes)
    | OnAck(app: Address, sourceClient: Bytes, destClient: Bytes, sequence: U64, payload: Payload, ack: Bytes)
    | OnTimeout(app: Address, sourceClient: Bytes, destClient: Bytes, sequence: U64, payload: Payload)

  type SeqKey = (Bytes, U64)

  datatype State = State(
    admin: Address,
    nextClientId: map<Bytes, U32>,
    typeAddr: map<Bytes, Address>,
    clientType: map<Bytes, Bytes>,
    lcAddr: map<Bytes, Address>,
    counterparty: map<Bytes, Counterparty>,
    frozen: set<Bytes>,
    port: map<Bytes, Address>,
    nextSeqSend: map<Bytes, U64>,
    commitments: map<SeqKey, Digest>,
    receipts: set<SeqKey>,
    acks: map<SeqKey, Digest>,
    events: seq<Event>,
    calls: seq<Call>)

  function Initial(admin: Address): State {
    State(admin, map[], map[], map[], map[], map[], {}, map[], map[], map[], {}, map[], [], [])
  }

  // ---------------------------------------------------------------- the world a transaction runs in

  datatype Verdict = Accepted | Rejected | Trapped

  datatype Query = Query(lc: Address, client: Bytes, height: U64, proof: Bytes, path: Bytes)

  /** The answers of the light-client contracts; `updated` is the height `update_state` returns. */
  datatype LightClients = LightClients(
    member: (Query, Bytes) -> Verdict,
    nonMember: Query -> Verdict,
    timestamp: (Address, Bytes, U64) -> Option<U64>,
    misbehaviour: Option<bool>,
    accepts: bool,
    updated: U64)

  /** `reply(i)` is what the application of payload `i` returns from `on_recv_packet`, and
      `settles(i)` whether its acknowledgement or timeout callback returns; `None` and `false` trap. */
  datatype Env = Env(
    time: U64,
    auth: set<Address>,
    lc: LightClients,
    reply: nat -> Option<Bytes>,
    settles: nat -> bool)

  // ---------------------------------------------------------------- registration

  /** Sequences, the provable store, events and callbacks are untouched. */
  predicate LeavesPackets(st: State, st': State) {
    && st'.nextSeqSend == st.nextSeqSend && st'.commitments == st.commitments
    && st'.receipts == st.receipts && st'.acks == st.acks
    && st'.events == st.events && st'.calls == st.calls
  }

  function RegisterPort(st: State, env: Env, port: Bytes, app: Address): (r: Result<State, Error>)
    ensures r.Ok? ==> LeavesPackets(st, r.value)
  {
    if st.admin !in env.auth then Err(Trap)
    else if Validate(port).Some? then Err(InvalidIdentifier(Validate(port).value))
    else if port in st.port then Err(PortAlreadyRegistered)
    else Ok(st.(port := st.port[port := app]))
  }

  function RegisterClientType(st: State, env: Env, clientType: Bytes, lc: Address): (r: Result<State, Error>)
    ensures r.Ok? ==> LeavesPackets(st, r.value)
  {
    if st.admin !in env.auth then Err(Trap)
    else if Validate(clientType).Some? then Err(InvalidIdentifier(Validate(clientType).value))
    else Ok(st.(typeAddr := st.typeAddr[clientType := lc]))
  }

  function NextClient(st: State, clientType: Bytes): U32 {
    if clientType in st.nextClientId then st.nextClientId[clientType] else 0
  }

  function CreateClient(st: State, env: Env, clientType: Bytes): (r: Result<State, Error>)
    ensures r.Ok? ==> LeavesPackets(st, r.value)
  {
    if clientType !in st.typeAddr then Err(UnknownClientType)
    else
      var n := NextClient(st, clientType);
      var id := Minted(clientType, n);
      if n == U32_MAX || id == None || !env.lc.accepts then Err(Trap)
      else Ok(st.(nextClientId := st.nextClientId[clientType := n + 1],
                  clientType := st.clientType[id.value := clientType],
                  lcAddr := st.lcAddr[id.value := st.typeAddr[clientType]]))
  }

  function RegisterCounterparty(st: State, client: Bytes, peer: Bytes, prefix: seq<Bytes>): (r: Result<State, Error>)
    ensures r.Ok? ==> LeavesPackets(st, r.value)
  {
    if Validate(peer).Some? then Err(InvalidIdentifier(Validate(peer).value))
    else if client !in st.clientType then Err(ClientIdNotFound)
    else if client in st.counterparty then Err(CounterpartyAlreadyRegistered)
    else Ok(st.(counterparty := st.counterparty[client := Counterparty(peer, prefix)]))
  }

  function UpdateClient(st: State, env: Env, client: Bytes): (r: Result<State, Error>)
    ensures r.Ok? ==> LeavesPackets(st, r.value)
  {
    if client in st.frozen then Err(ClientFrozen)
    else if client !in st.lcAddr then Err(ClientIdNotFound)
    else if env.lc.misbehaviour == None || !env.lc.accepts then Err(Trap)
    else if env.lc.misbehaviour.value then Ok(st.(frozen := st.frozen + {client}))
    else Ok(st)
  }

  // ---------------------------------------------------------------- sending

  function NextSeq(st: State, client: Bytes): U64 {
    if client in st.nextSeqSend then st.nextSeqSend[client] else 0
  }

  /** The first payload whose port is unknown or whose application has not authorised the send. */
  function AuthError(port: map<Bytes, Address>, env: Env, payloads: seq<Payload>): (r: Option<Error>)
    ensures r == None <==> forall i :: 0 <= i < |payloads| ==>
              payloads[i].sourcePort in port && port[payloads[i].sourcePort] in env.auth
  {
    if |payloads| == 0 then None
    else if payloads[0].sourcePort !in port then Some(PortNotRegistered)
    else if port[payloads[0].sourcePort] !in env.auth then Some(Trap)
    else AuthError(port, env, payloads[1..])
  }

  function Send(sha: Hash, st: State, env: Env, client: Bytes, timeout: U64, payloads: seq<Payload>): Result<State, Error> {
    if payloads == [] then Err(PayloadsEmpty)
    else if client !in st.counterparty then Err(CounterpartyNotRegistered)
    else if timeout <= env.time then Err(TimeoutAlreadyElapsed)
    else if AuthError(st.port, env, payloads).Some? then Err(AuthError(st.port, env, payloads).value)
    else if NextSeq(st, client) == U64_MAX then Err(Trap)
    else
      var n := NextSeq(st, client) + 1;
      var packet := Packet(n, client, st.counterparty[client].clientId, timeout, payloads);
      if !Committable(packet) || !Fits(client) then Err(Trap)
      else Ok(st.(nextSeqSend := st.nextSeqSend[client := n],
                  commitments := st.commitments[(client, n) := CommitPacket(sha, packet)],
                  events := st.events + [SendPacket(packet)]))
  }

  // ---------------------------------------------------------------- light-client questions

  function AskMember(st: State, env: Env, client: Bytes, height: U64, proof: Bytes, path: Bytes, value: Bytes): Option<Error> {
    if client !in st.lcAddr then Some(ClientIdNotFound)
    else match env.lc.member(Query(st.lcAddr[client], client, height, proof, path), value)
      case Accepted => None
      case Rejected => Some(MembershipVerificationFailed)
      case Trapped => Some(Trap)
  }

  function AskNonMember(st: State, env: Env, client: Bytes, height: U64, proof: Bytes, path: Bytes): Option<Error> {
    if client !in st.lcAddr then Some(ClientIdNotFound)
    else match env.lc.nonMember(Query(st.lcAddr[client], client, height, proof, path))
      case Accepted => None
      case Rejected => Some(NonMembershipVerificationFailed)
      case Trapped => Some(Trap)
  }

  // ---------------------------------------------------------------- receiving

  const ERROR_ACK_PREIMAGE: Bytes :=
    [85, 78, 73, 86, 69, 82, 83, 65, 76, 95, 69, 82, 82, 79, 82, 95,
     65, 67, 75, 78, 79, 87, 76, 69, 68, 71, 69, 77, 69, 78, 84]

  function ErrorAck(sha: Hash): Bytes {
    sha(ERROR_ACK_PREIMAGE)
  }

  /** The callbacks for the first `k` payloads, or the error that aborts them. */
  function RecvCalls(port: map<Bytes, Address>, env: Env, p: Packet, k: nat): (r: Result<seq<Call>, Error>)
    requires k <= |p.payloads|
    ensures r.Ok? ==> |r.value| == k
    ensures r.Ok? ==> forall i :: 0 <= i < k ==>
              && p.payloads[i].destPort in port && env.reply(i).Some?
              && r.value[i] == OnRecv(port[p.payloads[i].destPort], p.sourceClient, p.destClient, p.sequence,
                                      p.payloads[i], env.reply(i).value)
  {
    if k == 0 then Ok([])
    else match RecvCalls(port, env, p, k - 1)
      case Err(e) => Err(e)
      case Ok(calls) =>
        var payload := p.payloads[k - 1];
        if payload.destPort !in port then Err(PortNotRegistered)
        else match env.reply(k - 1)
          case None => Err(Trap)
          case Some(ack) =>
            Ok(calls + [OnRecv(port[payload.destPort], p.sourceClient, p.destClient, p.sequence, payload, ack)])
  }

  function Replies(calls: seq<Call>): (r: seq<Bytes>)
    requires forall i :: 0 <= i < |calls| ==> calls[i].OnRecv?
    ensures |r| == |calls|
    ensures forall i :: 0 <= i < |calls| ==> r[i] == calls[i].reply
  {
    seq(|calls|, i requires 0 <= i < |calls| => calls[i].reply)
  }

  /** One acknowledgement per payload; a packet without payloads gets the error acknowledgement. */
  function AcksOf(sha: Hash, calls: seq<Call>): seq<Bytes>
    requires forall i :: 0 <= i < |calls| ==> calls[i].OnRecv?
  {
    if calls == [] then [ErrorAck(sha)] else Replies(calls)
  }

  function Recv(sha: Hash, st: State, env: Env, p: Packet, proof: Bytes, height: U64): Result<State, Error> {
    if p.destClient !in st.counterparty then Err(CounterpartyNotRegistered)
    else if st.counterparty[p.destClient].clientId != p.sourceClient then Err(PacketCounterpartyMismatch)
    else if p.timeout <= env.time then Err(TimeoutAlreadyElapsed)
    else if !Fits(p.destClient) then Err(Trap)
    else if (p.destClient, p.sequence) in st.receipts then Err(ReceiptAlreadyExists)
    else if !Committable(p) || !Fits(p.sourceClient) then Err(Trap)
    else
      var path := CounterpartyKey(st.counterparty[p.destClient].prefix, Path(p.sourceClient, PacketCommitment, p.sequence));
      match AskMember(st, env, p.destClient, height, proof, path, CommitPacket(sha, p))
      case Some(e) => Err(e)
      case None =>
        match RecvCalls(st.port, env, p, |p.payloads|)
        case Err(e) => Err(e)
        case Ok(calls) =>
          var acks := AcksOf(sha, calls);
          var key := (p.destClient, p.sequence);
          Ok(st.(receipts := st.receipts + {key},
                 acks := st.acks[key := CommitAck(sha, acks)],
                 calls := st.calls + calls,
                 events := st.events + [RecvPacket(p), WriteAck(p.destClient, p.sequence, acks)]))
  }

  function WriteAcknowledgement(sha: Hash, st: State, client: Bytes, sequence: U64, acks: seq<Bytes>): Result<State, Error> {
    if !Fits(client) then Err(Trap)
    else if (client, sequence) !in st.receipts then Err(NoReceiptForSequence)
    else if (client, sequence) in st.acks then Err(AckAlreadyExists)
    else Ok(st.(acks := st.acks[(client, sequence) := CommitAck(sha, acks)],
                events := st.events + [WriteAck(client, sequence, acks)]))
  }

  // ---------------------------------------------------------------- settling

  /** The packet handed in must hash to the stored commitment and name the registered counterparty. */
  function SettleError(sha: Hash, st: State, p: Packet): Option<Error> {
    if !Fits(p.sourceClient) then Some(Trap)
    else if (p.sourceClient, p.sequence) !in st.commitments then Some(NoCommitmentForSequence)
    else if !Committable(p) then Some(Trap)
    else if st.commitments[(p.sourceClient, p.sequence)] != CommitPacket(sha, p) then Some(CommitmentMismatch)
    else if p.sourceClient !in st.counterparty then Some(CounterpartyNotRegistered)
    else if st.counterparty[p.sourceClient].clientId != p.destClient then Some(PacketCounterpartyMismatch)
    else None
  }

  function AckFor(sha: Hash, acks: seq<Bytes>, i: nat): Bytes {
    if i < |acks| then acks[i] else ErrorAck(sha)
  }

  function AckCalls(sha: Hash, port: map<Bytes, Address>, env: Env, p: Packet, acks: seq<Bytes>, k: nat): (r: Result<seq<Call>, Error>)
    requires k <= |p.payloads|
    ensures r.Ok? ==> |r.value| == k
    ensures r.Ok? ==> forall i :: 0 <= i < k ==>
              && p.payloads[i].sourcePort in port
              && r.value[i] == OnAck(port[p.payloads[i].sourcePort], p.sourceClient, p.destClient, p.sequence,
                                     p.payloads[i], AckFor(sha, acks, i))
  {
    if k == 0 then Ok([])
    else match AckCalls(sha, port, env, p, acks, k - 1)
      case Err(e) => Err(e)
      case Ok(calls) =>
        var payload := p.payloads[k - 1];
        if payload.sourcePort !in port then Err(PortNotRegistered)
        else if !env.settles(k - 1) then Err(Trap)
        else Ok(calls + [OnAck(port[payload.sourcePort], p.sourceClient, p.destClient, p.sequence,
                               payload, AckFor(sha, acks, k - 1))])
  }

  function TimeoutCalls(port: map<Bytes, Address>, env: Env, p: Packet, k: nat): (r: Result<seq<Call>, Error>)
    requires k <= |p.payloads|
    ensures r.Ok? ==> |r.value| == k
    ensures r.Ok? ==> forall i :: 0 <= i < k ==>
              && p.payloads[i].sourcePort in port
              && r.value[i] == OnTimeout(port[p.payloads[i].sourcePort], p.sourceClient, p.destClient, p.sequence,
                                         p.payloads[i])
  {
    if k == 0 then Ok([])
    else match TimeoutCalls(port, env, p, k - 1)
      case Err(e) => Err(e)
      case Ok(calls) =>
        var payload := p.payloads[k - 1];
        if payload.sourcePort !in port then Err(PortNotRegistered)
        else if !env.settles(k - 1) then Err(Trap)
        else Ok(calls + [OnTimeout(port[payload.sourcePort], p.sourceClient, p.destClient, p.sequence, payload)])
  }

  function Acknowledge(sha: Hash, st: State, env: Env, p: Packet, acks: seq<Bytes>, proof: Bytes, height: U64): Result<State, Error> {
    if SettleError(sha, st, p).Some? then Err(SettleError(sha, st, p).value)
    else if !Fits(p.destClient) then Err(Trap)
    else
      var path := CounterpartyKey(st.counterparty[p.sourceClient].prefix, Path(p.destClient, AckCommitment, p.sequence));
      match AskMember(st, env, p.sourceClient, height, proof, path, CommitAck(sha, acks))
      case Some(e) => Err(e)
      case None =>
        match AckCalls(sha, st.port, env, p, acks, |p.payloads|)
        case Err(e) => Err(e)
        case Ok(calls) =>
          Ok(st.(commitments := st.commitments - {(p.sourceClient, p.sequence)},
                 calls := st.calls + calls,
                 events := st.events + [AckPacket(p, acks)]))
  }

  function Timeout(sha: Hash, st: State, env: Env, p: Packet, proof: Bytes, height: U64): Result<State, Error> {
    if SettleError(sha, st, p).Some? then Err(SettleError(sha, st, p).value)
    else if p.sourceClient !in st.lcAddr then Err(ClientIdNotFound)
    else match env.lc.timestamp(st.lcAddr[p.sourceClient], p.sourceClient, height)
      case None => Err(Trap)
      case Some(proofTime) =>
        if proofTime <= p.timeout then Err(TimeoutNotYetElapsed)
        else if !Fits(p.destClient) then Err(Trap)
        else
          var path := CounterpartyKey(st.counterparty[p.sourceClient].prefix, Path(p.destClient, PacketReceipt, p.sequence));
          match AskNonMember(st, env, p.sourceClient, height, proof, path)
          case Some(e) => Err(e)
          case None =>
            match TimeoutCalls(st.port, env, p, |p.payloads|)
            case Err(e) => Err(e)
            case Ok(calls) =>
              Ok(st.(commitments := st.commitments - {(p.sourceClient, p.sequence)},
                     calls := st.calls + calls,
                     events := st.events + [TimeoutPacket(p)]))
  }

  // ---------------------------------------------------------------- transactions

  datatype Action =
    | DoRegisterPort(port: Bytes, app: Address)
    | DoRegisterClientType(clientType: Bytes, lc: Address)
    | DoCreateClient(clientType: Bytes)
    | DoRegisterCounterparty(client: Bytes, peer: Bytes, prefix: seq<Bytes>)
    | DoUpdateClient(client: Bytes)
    | DoSend(client: Bytes, timeout: U64, payloads: seq<Payload>)
    | DoRecv(packet: Packet, proof: Bytes, height: U64)
    | DoWriteAck(client: Bytes, sequence: U64, acks: seq<Bytes>)
    | DoAcknowledge(packet: Packet, acks: seq<Bytes>, proof: Bytes, height: U64)
    | DoTimeout(packet: Packet, proof: Bytes, height: U64)

  function Exec(sha: Hash, st: State, env: Env, a: Action): Result<State, Error> {
    match a
    case DoRegisterPort(port, app) => RegisterPort(st, env, port, app)
    case DoRegisterClientType(clientType, lc) => RegisterClientType(st, env, clientType, lc)
    case DoCreateClient(clientType) => CreateClient(st, env, clientType)
    case DoRegisterCounterparty(client, peer, prefix) => RegisterCounterparty(st, client, peer, prefix)
    case DoUpdateClient(client) => UpdateClient(st, env, client)
    case DoSend(client, timeout, payloads) => Send(sha, st, env, client, timeout, payloads)
    case DoRecv(packet, proof, height) => Recv(sha, st, env, packet, proof, height)
    case DoWriteAck(client, sequence, acks) => WriteAcknowledgement(sha, st, client, sequence, acks)
    case DoAcknowledge(packet, acks, proof, height) => Acknowledge(sha, st, env, packet, acks, proof, height)
    case DoTimeout(packet, proof, height) => Timeout(sha, st, env, packet, proof, height)
  }

  /** A failed transaction changes nothing. */
  function Step(sha: Hash, st: State, env: Env, a: Action): State {
    match Exec(sha, st, env, a)
    case Ok(st') => st'
    case Err(_) => st
  }
}
