/** Two routers, their block histories, and an arbitrary relayer. */
module TwoChains {
  import opened Prelude
  import opened Paths
  import opened Commitments
  import opened Router
  import opened RouterRuns

  /** A closed block: its timestamp and the state after its transactions. */
  datatype Block = Block(time: U64, state: State)

  /** `prefix` is the store prefix peers know this chain by. `honest` are the client ids of this
      chain whose light client tracks the peer and whose counterparty registration, once made,
      names the peer's store prefix; nothing is assumed of the other clients. */
  datatype Chain = Chain(router: State, time: U64, blocks: seq<Block>, prefix: Bytes, honest: set<Bytes>)

  datatype Side = Left | Right

  function Other(s: Side): Side {
    if s == Left then Right else Left
  }

  datatype World = World(left: Chain, right: Chain) {
    function At(s: Side): Chain {
      if s == Left then left else right
    }

    function With(s: Side, c: Chain): World {
      if s == Left then this.(left := c) else this.(right := c)
    }
  }

  // ---------------------------------------------------------------- what a store holds

  const RECEIPT: Bytes := [0x01]

  predicate Holds(st: State, p: Path, value: Bytes) {
    var key := (p.client, p.sequence);
    match p.kind
    case PacketCommitment => key in st.commitments && st.commitments[key] == value
    case PacketReceipt => key in st.receipts && value == RECEIPT
    case AckCommitment => key in st.acks && st.acks[key] == value
  }

  /** The byte-keyed store of a router maps `key` to `value`. */
  ghost predicate HoldsKey(st: State, key: Bytes, value: Bytes) {
    exists p: Path :: Key(p) == key && Holds(st, p, value)
  }

  lemma HoldsKeyIsHolds(st: State, p: Path, value: Bytes)
    ensures HoldsKey(st, Key(p), value) <==> Holds(st, p, value)
  {
    if HoldsKey(st, Key(p), value) {
      var q: Path :| Key(q) == Key(p) && Holds(st, q, value);
      KeyInjective(p, q);
    }
  }

  // ---------------------------------------------------------------- sound light clients

  /** What an accepted proof for `client` says about the peer's history. */
  ghost predicate Sound(lc: LightClients, peer: Chain, client: Bytes) {
    && (forall q: Query, value: Bytes :: q.client == client && lc.member(q, value) == Accepted ==>
          MemberIn(peer, q.height, q.path, value))
    && (forall q: Query :: q.client == client && lc.nonMember(q) == Accepted ==> AbsentIn(peer, q.height, q.path))
    && (forall addr: Address, h: U64, t: U64 :: lc.timestamp(addr, client, h) == Some(t) && t > 0 ==>
          h < |peer.blocks| && t == peer.blocks[h].time)
  }

  ghost predicate MemberIn(peer: Chain, h: U64, path: Bytes, value: Bytes) {
    && h < |peer.blocks| && peer.prefix <= path
    && HoldsKey(peer.blocks[h].state, path[|peer.prefix|..], value)
  }

  ghost predicate AbsentIn(peer: Chain, h: U64, path: Bytes) {
    && h < |peer.blocks| && peer.prefix <= path
    && forall value :: !HoldsKey(peer.blocks[h].state, path[|peer.prefix|..], value)
  }

  // ---------------------------------------------------------------- steps and runs

  datatype WorldStep =
    | Transact(side: Side, tx: Tx)
    | CloseBlock(side: Side, time: U64)

  /** Anyone may submit any transaction; it runs at the chain's time. Time never goes back. */
  ghost predicate Legal(w: World, s: WorldStep) {
    var self, peer := w.At(s.side), w.At(Other(s.side));
    match s
    case CloseBlock(_, time) => self.time <= time
    case Transact(_, tx) =>
      && tx.env.time == self.time
      && (forall c :: c in self.honest ==> Sound(tx.env.lc, peer, c))
      && (tx.action.DoRegisterCounterparty? && tx.action.client in self.honest ==>
            Concat(tx.action.prefix) == peer.prefix)
  }

  function Next(sha: Hash, w: World, s: WorldStep): World {
    var self := w.At(s.side);
    match s
    case CloseBlock(side, time) =>
      w.With(side, self.(blocks := self.blocks + [Block(self.time, self.router)], time := time))
    case Transact(side, tx) =>
      w.With(side, self.(router := Step(sha, self.router, tx.env, tx.action)))
  }

  function RunWorld(sha: Hash, w: World, steps: seq<WorldStep>): World {
    if |steps| == 0 then w else Next(sha, RunWorld(sha, w, steps[..|steps| - 1]), steps[|steps| - 1])
  }

  ghost predicate LegalRun(sha: Hash, w: World, steps: seq<WorldStep>) {
    forall k :: 0 <= k < |steps| ==> Legal(RunWorld(sha, w, steps[..k]), steps[k])
  }

  /** Two freshly deployed routers. */
  ghost predicate Start(w: World) {
    forall s: Side :: w.At(s).blocks == [] && w.At(s).router == Initial(w.At(s).router.admin)
  }

  // ---------------------------------------------------------------- what each chain keeps by itself

  ghost predicate BlockInv(sha: Hash, b: Block, c: Chain) {
    && Inv(sha, b.state) && Evolves(b.state, c.router) && b.time <= c.time
    && forall p :: RecvPacket(p) in c.router.events && (p.destClient, p.sequence) !in b.state.receipts ==> b.time < p.timeout
  }

  /** Every acknowledged payload was handed its acknowledgement. */
  ghost predicate AcksHanded(sha: Hash, st: State) {
    forall p, acks, i :: AckPacket(p, acks) in st.events && 0 <= i < |p.payloads| ==>
      Handed(sha, st.calls, st.port, p, acks, i)
  }

  /** Packets are received only from the registered counterparty client. */
  ghost predicate FromCounterparty(st: State) {
    forall p :: RecvPacket(p) in st.events ==>
      p.destClient in st.counterparty && st.counterparty[p.destClient].clientId == p.sourceClient
  }

  ghost predicate ChainInv(sha: Hash, c: Chain, peerPrefix: Bytes) {
    && Inv(sha, c.router)
    && (forall h :: 0 <= h < |c.blocks| ==> BlockInv(sha, c.blocks[h], c))
    && (forall k :: k in c.honest && k in c.router.counterparty ==> Concat(c.router.counterparty[k].prefix) == peerPrefix)
    && AcksHanded(sha, c.router)
    && FromCounterparty(c.router)
  }

  // ---------------------------------------------------------------- what each chain knows of the other

  ghost predicate WasCommitted(sha: Hash, blocks: seq<Block>, p: Packet) {
    exists h :: 0 <= h < |blocks| && Holds(blocks[h].state, Path(p.sourceClient, PacketCommitment, p.sequence), CommitPacket(sha, p))
  }

  ghost predicate WasAcked(sha: Hash, blocks: seq<Block>, p: Packet, acks: seq<Bytes>) {
    exists h :: 0 <= h < |blocks| && Holds(blocks[h].state, Path(p.destClient, AckCommitment, p.sequence), CommitAck(sha, acks))
  }

  /** Some block after the timeout does not have the packet's receipt. */
  ghost predicate WasLate(blocks: seq<Block>, p: Packet) {
    exists h :: 0 <= h < |blocks| && blocks[h].time > p.timeout && (p.destClient, p.sequence) !in blocks[h].state.receipts
  }

  ghost predicate Justified(sha: Hash, honest: set<Bytes>, e: Event, blocks: seq<Block>) {
    match e
    case RecvPacket(p) => p.destClient in honest ==> WasCommitted(sha, blocks, p)
    case AckPacket(p, acks) => p.sourceClient in honest ==> WasAcked(sha, blocks, p, acks)
    case TimeoutPacket(p) => p.sourceClient in honest ==> WasLate(blocks, p)
    case _ => true
  }

  ghost predicate AllJustified(sha: Hash, c: Chain, blocks: seq<Block>) {
    forall e :: e in c.router.events ==> Justified(sha, c.honest, e, blocks)
  }

  ghost predicate SideInv(sha: Hash, self: Chain, peer: Chain) {
    ChainInv(sha, self, peer.prefix) && AllJustified(sha, self, peer.blocks)
  }

  ghost predicate WorldInv(sha: Hash, w: World) {
    SideInv(sha, w.left, w.right) && SideInv(sha, w.right, w.left)
  }

  lemma StartInv(sha: Hash, w: World)
    requires Start(w)
    ensures WorldInv(sha, w)
  {
    assert w.At(Left).blocks == [] && w.At(Right).blocks == [];
    InitialInv(sha, w.left.router.admin);
    InitialInv(sha, w.right.router.admin);
  }

  // ---------------------------------------------------------------- transactions

  /** The one event, besides the acknowledgement written, that a transaction can add. */
  lemma RecvJustified(sha: Hash, c: Chain, peer: Chain, env: Env, p: Packet, proof: Bytes, height: U64)
    requires ChainInv(sha, c, peer.prefix) && Recv(sha, c.router, env, p, proof, height).Ok?
    requires forall k :: k in c.honest ==> Sound(env.lc, peer, k)
    ensures p.timeout > env.time
    ensures p.destClient in c.router.counterparty && c.router.counterparty[p.destClient].clientId == p.sourceClient
    ensures Justified(sha, c.honest, RecvPacket(p), peer.blocks)
  {
    if p.destClient in c.honest {
      var path := Path(p.sourceClient, PacketCommitment, p.sequence);
      var key := CounterpartyKey(c.router.counterparty[p.destClient].prefix, path);
      var q := Query(c.router.lcAddr[p.destClient], p.destClient, height, proof, key);
      assert env.lc.member(q, CommitPacket(sha, p)) == Accepted;
      assert MemberIn(peer, height, key, CommitPacket(sha, p));
      assert key[|peer.prefix|..] == Key(path);
      HoldsKeyIsHolds(peer.blocks[height].state, path, CommitPacket(sha, p));
    }
  }

  lemma AckJustified(sha: Hash, c: Chain, peer: Chain, env: Env, p: Packet, acks: seq<Bytes>, proof: Bytes, height: U64)
    requires ChainInv(sha, c, peer.prefix) && Acknowledge(sha, c.router, env, p, acks, proof, height).Ok?
    requires forall k :: k in c.honest ==> Sound(env.lc, peer, k)
    ensures Justified(sha, c.honest, AckPacket(p, acks), peer.blocks)
  {
    if p.sourceClient in c.honest {
      var path := Path(p.destClient, AckCommitment, p.sequence);
      var key := CounterpartyKey(c.router.counterparty[p.sourceClient].prefix, path);
      var q := Query(c.router.lcAddr[p.sourceClient], p.sourceClient, height, proof, key);
      assert env.lc.member(q, CommitAck(sha, acks)) == Accepted;
      assert MemberIn(peer, height, key, CommitAck(sha, acks));
      assert key[|peer.prefix|..] == Key(path);
      HoldsKeyIsHolds(peer.blocks[height].state, path, CommitAck(sha, acks));
    }
  }

  lemma TimeoutJustified(sha: Hash, c: Chain, peer: Chain, env: Env, p: Packet, proof: Bytes, height: U64)
    requires ChainInv(sha, c, peer.prefix) && Timeout(sha, c.router, env, p, proof, height).Ok?
    requires forall k :: k in c.honest ==> Sound(env.lc, peer, k)
    ensures Justified(sha, c.honest, TimeoutPacket(p), peer.blocks)
  {
    if p.sourceClient in c.honest {
      var path := Path(p.destClient, PacketReceipt, p.sequence);
      var key := CounterpartyKey(c.router.counterparty[p.sourceClient].prefix, path);
      var addr := c.router.lcAddr[p.sourceClient];
      var q := Query(addr, p.sourceClient, height, proof, key);
      assert env.lc.nonMember(q) == Accepted;
      assert AbsentIn(peer, height, key);
      assert key[|peer.prefix|..] == Key(path);
      HoldsKeyIsHolds(peer.blocks[height].state, path, RECEIPT);
      var t := env.lc.timestamp(addr, p.sourceClient, height);
      assert t.Some? && t.value > p.timeout && t.value == peer.blocks[height].time;
    }
  }

  /** The event, besides sends and written acknowledgements, that a transaction can add. */
  function Headline(a: Action): Option<Event> {
    match a
    case DoRecv(p, _, _) => Some(RecvPacket(p))
    case DoAcknowledge(p, acks, _, _) => Some(AckPacket(p, acks))
    case DoTimeout(p, _, _) => Some(TimeoutPacket(p))
    case _ => None
  }

  lemma RegistrationAddsOwn(sha: Hash, st: State, env: Env, a: Action)
    requires Exec(sha, st, env, a).Ok? && IsRegistration(a)
    ensures var st' := Exec(sha, st, env, a).value;
            forall k :: k in st'.counterparty ==>
              || (k in st.counterparty && st.counterparty[k] == st'.counterparty[k])
              || (a.DoRegisterCounterparty? && a.client == k && st'.counterparty[k].prefix == a.prefix)
  {
  }

  /** Packet transactions leave counterparties alone and add their headline, a send, or an
      acknowledgement written. */
  lemma PacketTxEvents(sha: Hash, st: State, env: Env, a: Action)
    requires Inv(sha, st) && Exec(sha, st, env, a).Ok? && !IsRegistration(a)
    ensures var st' := Exec(sha, st, env, a).value;
            && st'.counterparty == st.counterparty
            && forall e :: e in st'.events ==> e in st.events || Headline(a) == Some(e) || e.SendPacket? || e.WriteAck?
  {
    match a
    case DoSend(client, timeout, payloads) => SendSends(sha, st, env, client, timeout, payloads);
    case DoRecv(p, proof, height) => RecvReceives(sha, st, env, p, proof, height);
    case DoWriteAck(client, sequence, acks) => WriteAckRefused(sha, st, client, sequence, acks);
    case DoAcknowledge(p, acks, proof, height) => AcknowledgeSettles(sha, st, env, p, acks, proof, height);
    case DoTimeout(p, proof, height) => TimeoutSettles(sha, st, env, p, proof, height);
  }

  lemma HeadlineOnly(sha: Hash, st: State, env: Env, a: Action)
    requires Inv(sha, st) && Exec(sha, st, env, a).Ok?
    ensures forall e :: e in Exec(sha, st, env, a).value.events ==>
              e in st.events || Headline(a) == Some(e) || e.SendPacket? || e.WriteAck?
  {
    if IsRegistration(a) {
      RegistrationIsQuiet(sha, st, env, a);
    } else {
      PacketTxEvents(sha, st, env, a);
    }
  }

  /** A submitted transaction, legal for `c` with peer `peer`. */
  ghost predicate Submitted(sha: Hash, c: Chain, peer: Chain, env: Env, a: Action) {
    && ChainInv(sha, c, peer.prefix)
    && env.time == c.time
    && (forall k :: k in c.honest ==> Sound(env.lc, peer, k))
    && (a.DoRegisterCounterparty? && a.client in c.honest ==> Concat(a.prefix) == peer.prefix)
    && Exec(sha, c.router, env, a).Ok?
  }

  lemma HeadlineJustified(sha: Hash, c: Chain, peer: Chain, env: Env, a: Action)
    requires Submitted(sha, c, peer, env, a) && Headline(a).Some?
    ensures Justified(sha, c.honest, Headline(a).value, peer.blocks)
    ensures a.DoRecv? ==>
              && a.packet.timeout > env.time
              && a.packet.destClient in c.router.counterparty
              && c.router.counterparty[a.packet.destClient].clientId == a.packet.sourceClient
  {
    match a
    case DoRecv(p, proof, height) => RecvJustified(sha, c, peer, env, p, proof, height);
    case DoAcknowledge(p, acks, proof, height) => AckJustified(sha, c, peer, env, p, acks, proof, height);
    case DoTimeout(p, proof, height) => TimeoutJustified(sha, c, peer, env, p, proof, height);
  }

  lemma EventsStayJustified(sha: Hash, c: Chain, peer: Chain, env: Env, a: Action)
    requires Submitted(sha, c, peer, env, a) && AllJustified(sha, c, peer.blocks)
    ensures AllJustified(sha, c.(router := Exec(sha, c.router, env, a).value), peer.blocks)
  {
    var st' := Exec(sha, c.router, env, a).value;
    if Headline(a).Some? {
      HeadlineJustified(sha, c, peer, env, a);
    }
    forall e | e in st'.events ensures Justified(sha, c.honest, e, peer.blocks) {
      HeadlineOnly(sha, c.router, env, a);
    }
  }

  lemma BlocksStand(sha: Hash, c: Chain, peer: Chain, env: Env, a: Action, b: Block)
    requires Submitted(sha, c, peer, env, a) && BlockInv(sha, b, c)
    ensures BlockInv(sha, b, c.(router := Exec(sha, c.router, env, a).value))
  {
    var st' := Exec(sha, c.router, env, a).value;
    ExecKeeps(sha, c.router, env, a);
    EvolvesTrans(b.state, c.router, st');
    forall p | RecvPacket(p) in st'.events && (p.destClient, p.sequence) !in b.state.receipts ensures b.time < p.timeout {
      HeadlineOnly(sha, c.router, env, a);
      if Headline(a) == Some(RecvPacket(p)) {
        HeadlineJustified(sha, c, peer, env, a);
      }
    }
  }

  lemma CounterpartiesStand(sha: Hash, c: Chain, peer: Chain, env: Env, a: Action)
    requires Submitted(sha, c, peer, env, a)
    ensures var st' := Exec(sha, c.router, env, a).value;
            && FromCounterparty(st')
            && forall k :: k in c.honest && k in st'.counterparty ==> Concat(st'.counterparty[k].prefix) == peer.prefix
  {
    var st' := Exec(sha, c.router, env, a).value;
    ExecKeeps(sha, c.router, env, a);
    forall p | RecvPacket(p) in st'.events
      ensures p.destClient in st'.counterparty && st'.counterparty[p.destClient].clientId == p.sourceClient
    {
      HeadlineOnly(sha, c.router, env, a);
      if Headline(a) == Some(RecvPacket(p)) {
        HeadlineJustified(sha, c, peer, env, a);
      }
    }
    forall k | k in c.honest && k in st'.counterparty ensures Concat(st'.counterparty[k].prefix) == peer.prefix {
      CounterpartyOrigin(sha, c.router, env, a, k);
    }
  }

  lemma CounterpartyOrigin(sha: Hash, st: State, env: Env, a: Action, k: Bytes)
    requires Inv(sha, st) && Exec(sha, st, env, a).Ok? && k in Exec(sha, st, env, a).value.counterparty
    ensures var cp := Exec(sha, st, env, a).value.counterparty[k];
            || (k in st.counterparty && st.counterparty[k] == cp)
            || (a.DoRegisterCounterparty? && a.client == k && cp.prefix == a.prefix)
  {
    if IsRegistration(a) {
      RegistrationAddsOwn(sha, st, env, a);
    } else {
      PacketTxEvents(sha, st, env, a);
    }
  }

  lemma AckHandedNow(sha: Hash, st: State, env: Env, p: Packet, acks: seq<Bytes>, proof: Bytes, height: U64, i: nat)
    requires Acknowledge(sha, st, env, p, acks, proof, height).Ok? && i < |p.payloads|
    ensures var st' := Acknowledge(sha, st, env, p, acks, proof, height).value;
            Handed(sha, st'.calls, st'.port, p, acks, i)
  {
    var calls := AckCalls(sha, st.port, env, p, acks, |p.payloads|).value;
    var st' := Acknowledge(sha, st, env, p, acks, proof, height).value;
    assert calls[i] == st'.calls[|st.calls| + i];
  }

  /** The acknowledgement for payload `i` was handed to the owner of its source port. */
  ghost predicate Handed(sha: Hash, calls: seq<Call>, port: map<Bytes, Address>, p: Packet, acks: seq<Bytes>, i: nat)
    requires i < |p.payloads|
  {
    && p.payloads[i].sourcePort in port
    && OnAck(port[p.payloads[i].sourcePort], p.sourceClient, p.destClient, p.sequence, p.payloads[i],
             AckFor(sha, acks, i)) in calls
  }

  lemma HandedStands(sha: Hash, st: State, st': State, p: Packet, acks: seq<Bytes>, i: nat)
    requires i < |p.payloads| && Evolves(st, st') && Handed(sha, st.calls, st.port, p, acks, i)
    ensures Handed(sha, st'.calls, st'.port, p, acks, i)
  {
  }

  lemma HandedGrows(sha: Hash, st: State, st': State)
    requires AcksHanded(sha, st) && Evolves(st, st')
    requires forall p, acks, i :: AckPacket(p, acks) in st'.events && AckPacket(p, acks) !in st.events && 0 <= i < |p.payloads| ==>
               Handed(sha, st'.calls, st'.port, p, acks, i)
    ensures AcksHanded(sha, st')
  {
    forall p, acks, i | AckPacket(p, acks) in st'.events && 0 <= i < |p.payloads|
      ensures Handed(sha, st'.calls, st'.port, p, acks, i)
    {
      if AckPacket(p, acks) in st.events {
        HandedStands(sha, st, st', p, acks, i);
      }
    }
  }

  lemma NewAckHanded(sha: Hash, st: State, env: Env, a: Action, p: Packet, acks: seq<Bytes>, i: nat)
    requires Inv(sha, st) && Exec(sha, st, env, a).Ok? && i < |p.payloads|
    requires AckPacket(p, acks) in Exec(sha, st, env, a).value.events && AckPacket(p, acks) !in st.events
    ensures Handed(sha, Exec(sha, st, env, a).value.calls, Exec(sha, st, env, a).value.port, p, acks, i)
  {
    HeadlineOnly(sha, st, env, a);
    assert Headline(a) == Some(AckPacket(p, acks));
    AckHandedNow(sha, st, env, p, acks, a.proof, a.height, i);
  }

  lemma AcksStayHanded(sha: Hash, st: State, env: Env, a: Action)
    requires Inv(sha, st) && AcksHanded(sha, st) && Exec(sha, st, env, a).Ok?
    ensures AcksHanded(sha, Exec(sha, st, env, a).value)
  {
    var st' := Exec(sha, st, env, a).value;
    ExecKeeps(sha, st, env, a);
    forall p, acks, i | AckPacket(p, acks) in st'.events && AckPacket(p, acks) !in st.events && 0 <= i < |p.payloads|
      ensures Handed(sha, st'.calls, st'.port, p, acks, i)
    {
      NewAckHanded(sha, st, env, a, p, acks, i);
    }
    HandedGrows(sha, st, st');
  }

  lemma TransactKeeps(sha: Hash, c: Chain, peer: Chain, env: Env, a: Action)
    requires Submitted(sha, c, peer, env, a)
    ensures ChainInv(sha, c.(router := Exec(sha, c.router, env, a).value), peer.prefix)
  {
    var c' := c.(router := Exec(sha, c.router, env, a).value);
    ExecKeeps(sha, c.router, env, a);
    forall h | 0 <= h < |c'.blocks| ensures BlockInv(sha, c'.blocks[h], c') {
      BlocksStand(sha, c, peer, env, a, c.blocks[h]);
    }
    CounterpartiesStand(sha, c, peer, env, a);
    AcksStayHanded(sha, c.router, env, a);
  }

  // ---------------------------------------------------------------- closing blocks

  lemma ReceivedHasReceipt(sha: Hash, st: State, p: Packet)
    requires Inv(sha, st) && RecvPacket(p) in st.events
    ensures (p.destClient, p.sequence) in st.receipts
    ensures Last(st.events, Received, (p.destClient, p.sequence)) == Some(RecvPacket(p))
  {
    assert KeyInv(sha, st, (p.destClient, p.sequence));
    OccursIsCounted(st.events, RecvPacket(p), Received, (p.destClient, p.sequence));
  }

  lemma EvolvesRefl(st: State)
    ensures Evolves(st, st)
  {
  }

  lemma NewBlock(sha: Hash, c: Chain, c': Chain)
    requires Inv(sha, c.router) && c'.router == c.router && c.time <= c'.time
    ensures BlockInv(sha, Block(c.time, c.router), c')
  {
    EvolvesRefl(c.router);
    forall p | RecvPacket(p) in c.router.events ensures (p.destClient, p.sequence) in c.router.receipts {
      ReceivedHasReceipt(sha, c.router, p);
    }
  }

  lemma CloseKeeps(sha: Hash, c: Chain, time: U64, peerPrefix: Bytes)
    requires ChainInv(sha, c, peerPrefix) && c.time <= time
    ensures ChainInv(sha, c.(blocks := c.blocks + [Block(c.time, c.router)], time := time), peerPrefix)
  {
    var c' := c.(blocks := c.blocks + [Block(c.time, c.router)], time := time);
    NewBlock(sha, c, c');
    forall h | 0 <= h < |c'.blocks| ensures BlockInv(sha, c'.blocks[h], c') {
      if h < |c.blocks| {
        assert BlockInv(sha, c.blocks[h], c);
      }
    }
  }

  lemma MoreBlocksJustify(sha: Hash, c: Chain, blocks: seq<Block>, b: Block)
    requires AllJustified(sha, c, blocks)
    ensures AllJustified(sha, c, blocks + [b])
  {
    var more := blocks + [b];
    forall e | e in c.router.events ensures Justified(sha, c.honest, e, more) {
      assert Justified(sha, c.honest, e, blocks);
      assert forall h :: 0 <= h < |blocks| ==> more[h] == blocks[h];
    }
  }

  // ---------------------------------------------------------------- all runs

  lemma StepKeepsSides(sha: Hash, self: Chain, peer: Chain, w: World, s: WorldStep)
    requires self == w.At(s.side) && peer == w.At(Other(s.side))
    requires SideInv(sha, self, peer) && SideInv(sha, peer, self) && Legal(w, s)
    ensures var self' := Next(sha, w, s).At(s.side);
            SideInv(sha, self', peer) && SideInv(sha, peer, self')
  {
    match s
    case CloseBlock(_, time) =>
      CloseKeeps(sha, self, time, peer.prefix);
      MoreBlocksJustify(sha, peer, self.blocks, Block(self.time, self.router));
    case Transact(_, tx) =>
      if Exec(sha, self.router, tx.env, tx.action).Ok? {
        TransactKeeps(sha, self, peer, tx.env, tx.action);
        EventsStayJustified(sha, self, peer, tx.env, tx.action);
      }
  }

  lemma StepKeepsWorld(sha: Hash, w: World, s: WorldStep)
    requires WorldInv(sha, w) && Legal(w, s)
    ensures WorldInv(sha, Next(sha, w, s))
  {
    StepKeepsSides(sha, w.At(s.side), w.At(Other(s.side)), w, s);
  }

  lemma {:induction false} RunKeepsWorld(sha: Hash, w: World, steps: seq<WorldStep>)
    requires WorldInv(sha, w) && LegalRun(sha, w, steps)
    ensures WorldInv(sha, RunWorld(sha, w, steps))
  {
    if |steps| > 0 {
      var front := steps[..|steps| - 1];
      forall k | 0 <= k < |front| ensures Legal(RunWorld(sha, w, front[..k]), front[k]) {
        assert front[..k] == steps[..k];
        assert Legal(RunWorld(sha, w, steps[..k]), steps[k]);
      }
      RunKeepsWorld(sha, w, front);
      StepKeepsWorld(sha, RunWorld(sha, w, front), steps[|steps| - 1]);
    }
  }
}
