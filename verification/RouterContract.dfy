/** The router contract over its one byte-keyed provable store. */
module RouterContract {
  import opened Prelude
  import opened Paths
  import opened Commitments
  import opened ClientIds
  import opened Router
  import T = TwoChains

  // ---------------------------------------------------------------- the provable store

  /** One byte-keyed map stands for three independent maps. */
  ghost predicate Refines(store: map<Bytes, Bytes>, st: State) {
    forall key: Bytes, value: Bytes :: key in store && store[key] == value <==> T.HoldsKey(st, key, value)
  }

  /** Writing one path changes the entry of that path and no other, of any kind. */
  lemma StoreSet(store: map<Bytes, Bytes>, st: State, st': State, p: Path, value: Bytes)
    requires Refines(store, st)
    requires forall v: Bytes :: T.Holds(st', p, v) <==> v == value
    requires forall q: Path, v: Bytes :: q != p ==> (T.Holds(st', q, v) <==> T.Holds(st, q, v))
    ensures Refines(store[Key(p) := value], st')
  {
    var store' := store[Key(p) := value];
    forall key: Bytes, v: Bytes ensures key in store' && store'[key] == v <==> T.HoldsKey(st', key, v) {
      if key == Key(p) {
        T.HoldsKeyIsHolds(st', p, v);
      } else {
        OtherKey(st, st', p, key, v);
      }
    }
  }

  lemma StoreRemove(store: map<Bytes, Bytes>, st: State, st': State, p: Path)
    requires Refines(store, st)
    requires forall v: Bytes :: !T.Holds(st', p, v)
    requires forall q: Path, v: Bytes :: q != p ==> (T.Holds(st', q, v) <==> T.Holds(st, q, v))
    ensures Refines(store - {Key(p)}, st')
  {
    var store' := store - {Key(p)};
    forall key: Bytes, v: Bytes ensures key in store' && store'[key] == v <==> T.HoldsKey(st', key, v) {
      if key == Key(p) {
        T.HoldsKeyIsHolds(st', p, v);
      } else {
        OtherKey(st, st', p, key, v);
      }
    }
  }

  lemma OtherKey(st: State, st': State, p: Path, key: Bytes, v: Bytes)
    requires key != Key(p)
    requires forall q: Path, v: Bytes :: q != p ==> (T.Holds(st', q, v) <==> T.Holds(st, q, v))
    ensures T.HoldsKey(st', key, v) <==> T.HoldsKey(st, key, v)
  {
    if T.HoldsKey(st, key, v) {
      var q: Path :| Key(q) == key && T.Holds(st, q, v);
      assert T.Holds(st', q, v);
    }
    if T.HoldsKey(st', key, v) {
      var q: Path :| Key(q) == key && T.Holds(st', q, v);
      assert T.Holds(st, q, v);
    }
  }

  /** Reading a path's key reads the path's own entry. */
  lemma StoreGet(store: map<Bytes, Bytes>, st: State, p: Path)
    requires Refines(store, st)
    ensures Key(p) in store <==> exists v :: T.Holds(st, p, v)
    ensures Key(p) in store ==> T.Holds(st, p, store[Key(p)])
  {
    if Key(p) in store {
      T.HoldsKeyIsHolds(st, p, store[Key(p)]);
    }
    forall v | T.Holds(st, p, v) ensures Key(p) in store {
      T.HoldsKeyIsHolds(st, p, v);
    }
  }

  class IbcRouter {
    const sha: Hash
    const admin: Address
    var nextClientId: map<Bytes, U32>
    var typeAddr: map<Bytes, Address>
    var clientType: map<Bytes, Bytes>
    var lcAddr: map<Bytes, Address>
    var counterparty: map<Bytes, Counterparty>
    var frozen: set<Bytes>
    var port: map<Bytes, Address>
    var nextSeqSend: map<Bytes, U64>
    var provable: map<Bytes, Bytes>
    var events: seq<Event>
    var calls: seq<Call>
    ghost var commitments: map<SeqKey, Digest>
    ghost var receipts: set<SeqKey>
    ghost var acks: map<SeqKey, Digest>

    ghost function View(): State
      reads this
    {
      State(admin, nextClientId, typeAddr, clientType, lcAddr, counterparty, frozen, port, nextSeqSend,
            commitments, receipts, acks, events, calls)
    }

    ghost predicate Valid()
      reads this
    {
      Refines(provable, View())
    }

    constructor (sha: Hash, admin: Address)
      ensures Valid() && View() == Initial(admin) && this.sha == sha
    {
      this.sha, this.admin := sha, admin;
      nextClientId, typeAddr, clientType, lcAddr := map[], map[], map[], map[];
      counterparty, frozen, port, nextSeqSend := map[], {}, map[], map[];
      provable, events, calls := map[], [], [];
      commitments, receipts, acks := map[], {}, map[];
    }

    // -------------------------------------------------------------- the store entries

    method SetPacketCommitment(client: Bytes, sequence: U64, hash: Digest) returns (ok: bool)
      requires Valid()
      modifies this`provable, this`commitments
      ensures Valid() && ok == Fits(client)
      ensures View() == if ok then old(View()).(commitments := old(commitments)[(client, sequence) := hash]) else old(View())
    {
      var path := Path(client, PacketCommitment, sequence);
      var key := BuildKey(path);
      if key == None {
        return false;
      }
      ghost var st := View();
      commitments := commitments[(client, sequence) := hash];
      StoreSet(provable, st, View(), path, hash);
      provable := provable[key.value := hash];
      ok := true;
    }

    method DeletePacketCommitment(client: Bytes, sequence: U64)
      requires Valid() && Fits(client)
      modifies this`provable, this`commitments
      ensures Valid() && View() == old(View()).(commitments := old(commitments) - {(client, sequence)})
    {
      var path := Path(client, PacketCommitment, sequence);
      var key := BuildKey(path);
      ghost var st := View();
      commitments := commitments - {(client, sequence)};
      StoreRemove(provable, st, View(), path);
      provable := provable - {key.value};
    }

    method SetPacketReceipt(client: Bytes, sequence: U64)
      requires Valid() && Fits(client)
      modifies this`provable, this`receipts
      ensures Valid() && View() == old(View()).(receipts := old(receipts) + {(client, sequence)})
    {
      var path := Path(client, PacketReceipt, sequence);
      var key := BuildKey(path);
      ghost var st := View();
      receipts := receipts + {(client, sequence)};
      StoreSet(provable, st, View(), path, T.RECEIPT);
      provable := provable[key.value := T.RECEIPT];
    }

    method SetAckCommitment(client: Bytes, sequence: U64, hash: Digest)
      requires Valid() && Fits(client)
      modifies this`provable, this`acks
      ensures Valid() && View() == old(View()).(acks := old(acks)[(client, sequence) := hash])
    {
      var path := Path(client, AckCommitment, sequence);
      var key := BuildKey(path);
      ghost var st := View();
      acks := acks[(client, sequence) := hash];
      StoreSet(provable, st, View(), path, hash);
      provable := provable[key.value := hash];
    }

    /** `None` traps; otherwise the stored bytes, if any. */
    method Get(p: Path) returns (r: Option<Option<Bytes>>)
      requires Valid()
      ensures r == None <==> !Fits(p.client)
      ensures r.Some? ==> forall v :: T.Holds(View(), p, v) <==> r.value == Some(v)
    {
      var key := BuildKey(p);
      if key == None {
        return None;
      }
      StoreGet(provable, View(), p);
      r := Some(if key.value in provable then Some(provable[key.value]) else None);
      forall v ensures T.Holds(View(), p, v) <==> r.value == Some(v) {
        T.HoldsKeyIsHolds(View(), p, v);
      }
    }

    // -------------------------------------------------------------- registration

    method RegisterPort(env: Env, portId: Bytes, app: Address) returns (r: Result<(), Error>)
      requires Valid()
      modifies this`port
      ensures Valid() && Obeys(Router.RegisterPort(old(View()), env, portId, app), r, old(View()), View())
    {
      if admin !in env.auth {
        return Err(Trap);
      }
      var why := Validate(portId);
      if why.Some? {
        return Err(InvalidIdentifier(why.value));
      }
      if portId in port {
        return Err(PortAlreadyRegistered);
      }
      ghost var st := View();
      port := port[portId := app];
      SameStore(provable, st, View());
      r := Ok(());
    }

    method RegisterClientType(env: Env, ty: Bytes, lc: Address) returns (r: Result<(), Error>)
      requires Valid()
      modifies this`typeAddr
      ensures Valid() && Obeys(Router.RegisterClientType(old(View()), env, ty, lc), r, old(View()), View())
    {
      if admin !in env.auth {
        return Err(Trap);
      }
      var why := Validate(ty);
      if why.Some? {
        return Err(InvalidIdentifier(why.value));
      }
      ghost var st := View();
      typeAddr := typeAddr[ty := lc];
      SameStore(provable, st, View());
      r := Ok(());
    }

    method CreateClient(env: Env, ty: Bytes) returns (r: Result<Bytes, Error>)
      requires Valid()
      modifies this`nextClientId, this`clientType, this`lcAddr
      ensures Valid() && Obeys(Router.CreateClient(old(View()), env, ty), r, old(View()), View())
      ensures r.Ok? ==> r.value == ClientId(ty, NextClient(old(View()), ty)) && r.value in clientType
    {
      if ty !in typeAddr {
        return Err(UnknownClientType);
      }
      var n := if ty in nextClientId then nextClientId[ty] else 0;
      if n == U32_MAX {
        return Err(Trap);
      }
      var id := MintClientId(ty, n);
      if id == None || !env.lc.accepts {
        return Err(Trap);
      }
      ghost var st := View();
      nextClientId := nextClientId[ty := n + 1];
      clientType := clientType[id.value := ty];
      lcAddr := lcAddr[id.value := typeAddr[ty]];
      assert Router.CreateClient(st, env, ty) == Ok(View());
      SameStore(provable, st, View());
      r := Ok(id.value);
    }

    method RegisterCounterparty(client: Bytes, peer: Bytes, prefix: seq<Bytes>) returns (r: Result<(), Error>)
      requires Valid()
      modifies this`counterparty
      ensures Valid() && Obeys(Router.RegisterCounterparty(old(View()), client, peer, prefix), r, old(View()), View())
    {
      var why := Validate(peer);
      if why.Some? {
        return Err(InvalidIdentifier(why.value));
      }
      if client !in clientType {
        return Err(ClientIdNotFound);
      }
      if client in counterparty {
        return Err(CounterpartyAlreadyRegistered);
      }
      ghost var st := View();
      counterparty := counterparty[client := Counterparty(peer, prefix)];
      SameStore(provable, st, View());
      r := Ok(());
    }

    /** Evidence of misbehaviour freezes the client instead of updating it. */
    method UpdateClient(env: Env, client: Bytes) returns (r: Result<U64, Error>)
      requires Valid()
      modifies this`frozen
      ensures Valid() && Obeys(Router.UpdateClient(old(View()), env, client), r, old(View()), View())
      ensures r.Ok? ==> r.value == if client in frozen then 0 else env.lc.updated
    {
      if client in frozen {
        return Err(ClientFrozen);
      }
      if client !in lcAddr {
        return Err(ClientIdNotFound);
      }
      if env.lc.misbehaviour == None || !env.lc.accepts {
        return Err(Trap);
      }
      if env.lc.misbehaviour.value {
        ghost var st := View();
        frozen := frozen + {client};
        SameStore(provable, st, View());
        return Ok(0);
      }
      r := Ok(env.lc.updated);
    }

    // -------------------------------------------------------------- sending

    method RequireAuth(env: Env, payloads: seq<Payload>) returns (r: Option<Error>)
      ensures r == AuthError(port, env, payloads)
    {
      for i := 0 to |payloads|
        invariant AuthError(port, env, payloads[i..]) == AuthError(port, env, payloads)
      {
        ghost var rest := payloads[i..];
        assert rest[0] == payloads[i] && rest[1..] == payloads[i + 1..];
        if payloads[i].sourcePort !in port {
          return Some(PortNotRegistered);
        }
        if port[payloads[i].sourcePort] !in env.auth {
          return Some(Trap);
        }
      }
      r := None;
    }

    /** Everything `send_packet` checks before it builds the packet; returns its sequence. */
    method CheckSend(env: Env, client: Bytes, timeout: U64, payloads: seq<Payload>) returns (r: Result<U64, Error>)
      ensures r.Err? ==> Send(sha, View(), env, client, timeout, payloads) == Err(r.error)
      ensures r.Ok? ==> Sendable(View(), env, client, timeout, payloads) && r.value == NextSeq(View(), client) + 1
    {
      if payloads == [] {
        return Err(PayloadsEmpty);
      }
      if client !in counterparty {
        return Err(CounterpartyNotRegistered);
      }
      if timeout <= env.time {
        return Err(TimeoutAlreadyElapsed);
      }
      var denied := RequireAuth(env, payloads);
      if denied.Some? {
        return Err(denied.value);
      }
      var last := if client in nextSeqSend then nextSeqSend[client] else 0;
      if last == U64_MAX {
        return Err(Trap);
      }
      r := Ok(last + 1);
    }

    method SendPacket(env: Env, client: Bytes, timeout: U64, payloads: seq<Payload>) returns (r: Result<U64, Error>)
      requires Valid()
      modifies this`nextSeqSend, this`provable, this`commitments, this`events
      ensures Valid() && Obeys(Send(sha, old(View()), env, client, timeout, payloads), r, old(View()), View())
      ensures r.Ok? ==> r.value == NextSeq(View(), client) == NextSeq(old(View()), client) + 1
    {
      var checked := CheckSend(env, client, timeout, payloads);
      if checked.Err? {
        return Err(checked.error);
      }
      var next := checked.value;
      SendAfterChecks(sha, View(), env, client, timeout, payloads);
      var packet := Packet(next, client, counterparty[client].clientId, timeout, payloads);
      var hash := HashPacket(sha, packet);
      if hash == None {
        return Err(Trap);
      }
      var ok := SetPacketCommitment(client, next, hash.value);
      if !ok {
        return Err(Trap);
      }
      ghost var st := View();
      nextSeqSend := nextSeqSend[client := next];
      events := events + [Event.SendPacket(packet)];
      SameStore(provable, st, View());
      r := Ok(next);
    }

    // -------------------------------------------------------------- callbacks

    method DispatchRecv(env: Env, p: Packet) returns (r: Result<seq<Bytes>, Error>)
      requires Valid()
      modifies this`calls
      ensures Valid()
      ensures var spec := RecvCalls(port, env, p, |p.payloads|);
              if spec.Ok? then r == Ok(AcksOf(sha, spec.value)) && View() == old(View()).(calls := old(calls) + spec.value)
              else r == Err(spec.error) && View() == old(View())
    {
      var made: seq<Call>, replies: seq<Bytes> := [], [];
      for i := 0 to |p.payloads|
        invariant RecvCalls(port, env, p, i) == Ok(made)
        invariant replies == Replies(made)
      {
        var payload := p.payloads[i];
        if payload.destPort !in port {
          RecvCallsStop(port, env, p, i);
          return Err(PortNotRegistered);
        }
        var reply := env.reply(i);
        if reply == None {
          RecvCallsStop(port, env, p, i);
          return Err(Trap);
        }
        made := made + [OnRecv(port[payload.destPort], p.sourceClient, p.destClient, p.sequence, payload, reply.value)];
        replies := replies + [reply.value];
      }
      if replies == [] {
        replies := [ErrorAck(sha)];
      }
      ghost var st := View();
      calls := calls + made;
      SameStore(provable, st, View());
      r := Ok(replies);
    }

    method DispatchAck(env: Env, p: Packet, replies: seq<Bytes>) returns (r: Result<(), Error>)
      requires Valid()
      modifies this`calls
      ensures Valid()
      ensures var spec := AckCalls(sha, port, env, p, replies, |p.payloads|);
              if spec.Ok? then r == Ok(()) && View() == old(View()).(calls := old(calls) + spec.value)
              else r == Err(spec.error) && View() == old(View())
    {
      var made: seq<Call> := [];
      for i := 0 to |p.payloads|
        invariant AckCalls(sha, port, env, p, replies, i) == Ok(made)
      {
        var payload := p.payloads[i];
        var ack := if i < |replies| then replies[i] else ErrorAck(sha);
        if payload.sourcePort !in port {
          AckCallsStop(sha, port, env, p, replies, i);
          return Err(PortNotRegistered);
        }
        if !env.settles(i) {
          AckCallsStop(sha, port, env, p, replies, i);
          return Err(Trap);
        }
        made := made + [OnAck(port[payload.sourcePort], p.sourceClient, p.destClient, p.sequence, payload, ack)];
      }
      ghost var st := View();
      calls := calls + made;
      SameStore(provable, st, View());
      r := Ok(());
    }

    method DispatchTimeout(env: Env, p: Packet) returns (r: Result<(), Error>)
      requires Valid()
      modifies this`calls
      ensures Valid()
      ensures var spec := TimeoutCalls(port, env, p, |p.payloads|);
              if spec.Ok? then r == Ok(()) && View() == old(View()).(calls := old(calls) + spec.value)
              else r == Err(spec.error) && View() == old(View())
    {
      var made: seq<Call> := [];
      for i := 0 to |p.payloads|
        invariant TimeoutCalls(port, env, p, i) == Ok(made)
      {
        var payload := p.payloads[i];
        if payload.sourcePort !in port {
          TimeoutCallsStop(port, env, p, i);
          return Err(PortNotRegistered);
        }
        if !env.settles(i) {
          TimeoutCallsStop(port, env, p, i);
          return Err(Trap);
        }
        made := made + [OnTimeout(port[payload.sourcePort], p.sourceClient, p.destClient, p.sequence, payload)];
      }
      ghost var st := View();
      calls := calls + made;
      SameStore(provable, st, View());
      r := Ok(());
    }

    // -------------------------------------------------------------- light-client questions

    method VerifyMembership(env: Env, client: Bytes, height: U64, proof: Bytes, path: Bytes, value: Bytes)
        returns (r: Option<Error>)
      ensures r == AskMember(View(), env, client, height, proof, path, value)
    {
      if client !in lcAddr {
        return Some(ClientIdNotFound);
      }
      match env.lc.member(Query(lcAddr[client], client, height, proof, path), value)
      case Accepted => r := None;
      case Rejected => r := Some(MembershipVerificationFailed);
      case Trapped => r := Some(Trap);
    }

    method VerifyNonMembership(env: Env, client: Bytes, height: U64, proof: Bytes, path: Bytes) returns (r: Option<Error>)
      ensures r == AskNonMember(View(), env, client, height, proof, path)
    {
      if client !in lcAddr {
        return Some(ClientIdNotFound);
      }
      match env.lc.nonMember(Query(lcAddr[client], client, height, proof, path))
      case Accepted => r := None;
      case Rejected => r := Some(NonMembershipVerificationFailed);
      case Trapped => r := Some(Trap);
    }

    /** The key below the counterparty's store prefix; `None` traps. */
    method CounterpartyPath(prefix: seq<Bytes>, p: Path) returns (r: Option<Bytes>)
      ensures r == if Fits(p.client) then Some(CounterpartyKey(prefix, p)) else None
    {
      var out: Bytes := [];
      for i := 0 to |prefix|
        invariant out == Concat(prefix[..i])
      {
        assert prefix[..i + 1][..i] == prefix[..i];
        out := out + prefix[i];
      }
      assert prefix[..|prefix|] == prefix;
      var key := BuildKey(p);
      if key == None {
        return None;
      }
      r := Some(out + key.value);
    }

    // -------------------------------------------------------------- receiving

    /** Everything `recv_packet` checks before it writes. */
    method CheckRecv(env: Env, p: Packet, proof: Bytes, height: U64) returns (r: Option<Error>)
      requires Valid()
      ensures r.Some? ==> Recv(sha, View(), env, p, proof, height) == Err(r.value)
      ensures r == None ==> Receivable(sha, View(), env, p, proof, height)
    {
      if p.destClient !in counterparty {
        return Some(CounterpartyNotRegistered);
      }
      var cp := counterparty[p.destClient];
      if cp.clientId != p.sourceClient {
        return Some(PacketCounterpartyMismatch);
      }
      if p.timeout <= env.time {
        return Some(TimeoutAlreadyElapsed);
      }
      var receipt := Get(Path(p.destClient, PacketReceipt, p.sequence));
      if receipt == None {
        return Some(Trap);
      }
      ReceiptRead(View(), p.destClient, p.sequence, receipt.value);
      if receipt.value.Some? {
        return Some(ReceiptAlreadyExists);
      }
      var expected := HashPacket(sha, p);
      var path := CounterpartyPath(cp.prefix, Path(p.sourceClient, PacketCommitment, p.sequence));
      if expected == None || path == None {
        return Some(Trap);
      }
      r := VerifyMembership(env, p.destClient, height, proof, path.value, expected.value);
    }

    method RecvPacket(env: Env, p: Packet, proof: Bytes, height: U64) returns (r: Result<(), Error>)
      requires Valid()
      modifies this`provable, this`receipts, this`acks, this`calls, this`events
      ensures Valid() && Obeys(Recv(sha, old(View()), env, p, proof, height), r, old(View()), View())
    {
      var refused := CheckRecv(env, p, proof, height);
      if refused.Some? {
        return Err(refused.value);
      }
      RecvAfterChecks(sha, View(), env, p, proof, height);
      r := Deliver(env, p);
    }

    /** The part of `recv_packet` that writes: receipt, callbacks, acknowledgement, events. */
    method Deliver(env: Env, p: Packet) returns (r: Result<(), Error>)
      requires Valid() && Fits(p.destClient)
      modifies this`provable, this`receipts, this`acks, this`calls, this`events
      ensures Valid() && Obeys(Delivered(sha, old(View()), env, p), r, old(View()), View())
    {
      // The host restores this store if a callback below traps.
      var saved := provable;
      ghost var st := View();
      SetPacketReceipt(p.destClient, p.sequence);
      var replies := DispatchRecv(env, p);
      if replies.Err? {
        RestoreReceipts(saved, st);
        return Err(replies.error);
      }
      FinishRecv(p, replies.value);
      assert View() == Delivered(sha, st, env, p).value;
      r := Ok(());
    }

    /** The host's rollback of a receipt. */
    method RestoreReceipts(saved: map<Bytes, Bytes>, ghost st: State)
      requires Refines(saved, st) && View() == st.(receipts := receipts)
      modifies this`provable, this`receipts
      ensures Valid() && View() == st
    {
      provable, receipts := saved, st.receipts;
    }

    method FinishRecv(p: Packet, replies: seq<Bytes>)
      requires Valid() && Fits(p.destClient)
      modifies this`provable, this`acks, this`events
      ensures Valid()
      ensures View() == old(View()).(acks := old(acks)[(p.destClient, p.sequence) := CommitAck(sha, replies)],
                events := old(events) + [Event.RecvPacket(p), WriteAck(p.destClient, p.sequence, replies)])
    {
      var hash := HashAck(sha, replies);
      SetAckCommitment(p.destClient, p.sequence, hash);
      ghost var before := View();
      events := events + [Event.RecvPacket(p), WriteAck(p.destClient, p.sequence, replies)];
      SameStore(provable, before, View());
    }

    method WriteAcknowledgement(client: Bytes, sequence: U64, replies: seq<Bytes>) returns (r: Result<(), Error>)
      requires Valid()
      modifies this`provable, this`acks, this`events
      ensures Valid() && Obeys(Router.WriteAcknowledgement(sha, old(View()), client, sequence, replies), r, old(View()), View())
    {
      var receipt := Get(Path(client, PacketReceipt, sequence));
      if receipt == None {
        return Err(Trap);
      }
      ReceiptRead(View(), client, sequence, receipt.value);
      if receipt.value == None {
        return Err(NoReceiptForSequence);
      }
      var ack := Get(Path(client, AckCommitment, sequence));
      AckRead(View(), client, sequence, ack.value);
      if ack.value.Some? {
        return Err(AckAlreadyExists);
      }
      var hash := HashAck(sha, replies);
      SetAckCommitment(client, sequence, hash);
      ghost var before := View();
      events := events + [WriteAck(client, sequence, replies)];
      SameStore(provable, before, View());
      r := Ok(());
    }

    // -------------------------------------------------------------- settling

    method CheckSettle(p: Packet) returns (r: Option<Error>)
      requires Valid()
      ensures r == SettleError(sha, View(), p)
    {
      var stored := Get(Path(p.sourceClient, PacketCommitment, p.sequence));
      if stored == None {
        return Some(Trap);
      }
      CommitmentRead(View(), p.sourceClient, p.sequence, stored.value);
      if stored.value == None {
        return Some(NoCommitmentForSequence);
      }
      var expected := HashPacket(sha, p);
      if expected == None {
        return Some(Trap);
      }
      if stored.value.value != expected.value {
        return Some(CommitmentMismatch);
      }
      if p.sourceClient !in counterparty {
        return Some(CounterpartyNotRegistered);
      }
      if counterparty[p.sourceClient].clientId != p.destClient {
        return Some(PacketCounterpartyMismatch);
      }
      r := None;
    }

    method AcknowledgePacket(env: Env, p: Packet, replies: seq<Bytes>, proof: Bytes, height: U64) returns (r: Result<(), Error>)
      requires Valid()
      modifies this`provable, this`commitments, this`calls, this`events
      ensures Valid() && Obeys(Acknowledge(sha, old(View()), env, p, replies, proof, height), r, old(View()), View())
    {
      var refused := CheckSettle(p);
      if refused.Some? {
        return Err(refused.value);
      }
      var hash := HashAck(sha, replies);
      var path := CounterpartyPath(counterparty[p.sourceClient].prefix, Path(p.destClient, AckCommitment, p.sequence));
      if path == None {
        return Err(Trap);
      }
      var denied := VerifyMembership(env, p.sourceClient, height, proof, path.value, hash);
      if denied.Some? {
        return Err(denied.value);
      }
      var done := DispatchAck(env, p, replies);
      if done.Err? {
        return Err(done.error);
      }
      DeletePacketCommitment(p.sourceClient, p.sequence);
      ghost var before := View();
      events := events + [AckPacket(p, replies)];
      SameStore(provable, before, View());
      r := Ok(());
    }

    method TimeoutPacket(env: Env, p: Packet, proof: Bytes, height: U64) returns (r: Result<(), Error>)
      requires Valid()
      modifies this`provable, this`commitments, this`calls, this`events
      ensures Valid() && Obeys(Timeout(sha, old(View()), env, p, proof, height), r, old(View()), View())
    {
      var refused := CheckSettle(p);
      if refused.Some? {
        return Err(refused.value);
      }
      if p.sourceClient !in lcAddr {
        return Err(ClientIdNotFound);
      }
      var proofTime := env.lc.timestamp(lcAddr[p.sourceClient], p.sourceClient, height);
      if proofTime == None {
        return Err(Trap);
      }
      if proofTime.value <= p.timeout {
        return Err(TimeoutNotYetElapsed);
      }
      var path := CounterpartyPath(counterparty[p.sourceClient].prefix, Path(p.destClient, PacketReceipt, p.sequence));
      if path == None {
        return Err(Trap);
      }
      var denied := VerifyNonMembership(env, p.sourceClient, height, proof, path.value);
      if denied.Some? {
        return Err(denied.value);
      }
      var done := DispatchTimeout(env, p);
      if done.Err? {
        return Err(done.error);
      }
      DeletePacketCommitment(p.sourceClient, p.sequence);
      ghost var before := View();
      events := events + [Event.TimeoutPacket(p)];
      SameStore(provable, before, View());
      r := Ok(());
    }
  }

  // ---------------------------------------------------------------- reading typed entries

  lemma ReceiptRead(st: State, client: Bytes, sequence: U64, found: Option<Bytes>)
    requires forall v :: T.Holds(st, Path(client, PacketReceipt, sequence), v) <==> found == Some(v)
    ensures found.Some? <==> (client, sequence) in st.receipts
  {
    assert T.Holds(st, Path(client, PacketReceipt, sequence), T.RECEIPT) <==> (client, sequence) in st.receipts;
    assert found.Some? ==> T.Holds(st, Path(client, PacketReceipt, sequence), found.value);
  }

  lemma AckRead(st: State, client: Bytes, sequence: U64, found: Option<Bytes>)
    requires forall v :: T.Holds(st, Path(client, AckCommitment, sequence), v) <==> found == Some(v)
    ensures found == if (client, sequence) in st.acks then Some(st.acks[(client, sequence)]) else None
  {
    assert found.Some? ==> T.Holds(st, Path(client, AckCommitment, sequence), found.value);
    assert (client, sequence) in st.acks ==>
      T.Holds(st, Path(client, AckCommitment, sequence), st.acks[(client, sequence)]);
  }

  lemma CommitmentRead(st: State, client: Bytes, sequence: U64, found: Option<Bytes>)
    requires forall v :: T.Holds(st, Path(client, PacketCommitment, sequence), v) <==> found == Some(v)
    ensures found == if (client, sequence) in st.commitments then Some(st.commitments[(client, sequence)]) else None
  {
    assert found.Some? ==> T.Holds(st, Path(client, PacketCommitment, sequence), found.value);
    assert (client, sequence) in st.commitments ==>
      T.Holds(st, Path(client, PacketCommitment, sequence), st.commitments[(client, sequence)]);
  }

  /** All checks of a send passed; only hashing and storing remain. */
  ghost predicate Sendable(st: State, env: Env, client: Bytes, timeout: U64, payloads: seq<Payload>) {
    && payloads != [] && client in st.counterparty && timeout > env.time
    && AuthError(st.port, env, payloads) == None && NextSeq(st, client) < U64_MAX
  }

  lemma SendAfterChecks(sha: Hash, st: State, env: Env, client: Bytes, timeout: U64, payloads: seq<Payload>)
    requires Sendable(st, env, client, timeout, payloads)
    ensures var n := NextSeq(st, client) + 1;
            var packet := Packet(n, client, st.counterparty[client].clientId, timeout, payloads);
            Send(sha, st, env, client, timeout, payloads)
            == if !Committable(packet) || !Fits(client) then Err(Trap)
               else Ok(st.(nextSeqSend := st.nextSeqSend[client := n],
                           commitments := st.commitments[(client, n) := CommitPacket(sha, packet)],
                           events := st.events + [SendPacket(packet)]))
  {
  }

  /** All checks of a receive passed; only the callbacks remain. */
  ghost predicate Receivable(sha: Hash, st: State, env: Env, p: Packet, proof: Bytes, height: U64) {
    && p.destClient in st.counterparty && st.counterparty[p.destClient].clientId == p.sourceClient
    && p.timeout > env.time && Fits(p.destClient) && (p.destClient, p.sequence) !in st.receipts
    && Committable(p) && Fits(p.sourceClient)
    && AskMember(st, env, p.destClient, height, proof,
                 CounterpartyKey(st.counterparty[p.destClient].prefix, Path(p.sourceClient, PacketCommitment, p.sequence)),
                 CommitPacket(sha, p)) == None
  }

  /** What remains of a receive after its checks. */
  ghost function Delivered(sha: Hash, st: State, env: Env, p: Packet): Result<State, Error> {
    var spec := RecvCalls(st.port, env, p, |p.payloads|);
    var key := (p.destClient, p.sequence);
    if spec.Err? then Err(spec.error)
    else Ok(st.(receipts := st.receipts + {key},
                acks := st.acks[key := CommitAck(sha, AcksOf(sha, spec.value))],
                calls := st.calls + spec.value,
                events := st.events + [RecvPacket(p), WriteAck(p.destClient, p.sequence, AcksOf(sha, spec.value))]))
  }

  lemma RecvAfterChecks(sha: Hash, st: State, env: Env, p: Packet, proof: Bytes, height: U64)
    requires Receivable(sha, st, env, p, proof, height)
    ensures Recv(sha, st, env, p, proof, height) == Delivered(sha, st, env, p)
  {
  }

  lemma SameStore(store: map<Bytes, Bytes>, st: State, st': State)
    requires Refines(store, st)
    requires st'.commitments == st.commitments && st'.receipts == st.receipts && st'.acks == st.acks
    ensures Refines(store, st')
  {
    forall key: Bytes, v: Bytes ensures T.HoldsKey(st', key, v) <==> T.HoldsKey(st, key, v) {
      forall p: Path ensures T.Holds(st', p, v) <==> T.Holds(st, p, v) {
      }
    }
  }

  /** The error at payload `i` is the error of the whole dispatch. */
  lemma {:induction false} RecvCallsStop(port: map<Bytes, Address>, env: Env, p: Packet, i: nat)
    requires i < |p.payloads| && RecvCalls(port, env, p, i + 1).Err?
    ensures RecvCalls(port, env, p, |p.payloads|) == RecvCalls(port, env, p, i + 1)
    decreases |p.payloads| - i
  {
    if i + 1 < |p.payloads| {
      RecvCallsStop(port, env, p, i + 1);
    }
  }

  lemma {:induction false} AckCallsStop(sha: Hash, port: map<Bytes, Address>, env: Env, p: Packet, acks: seq<Bytes>, i: nat)
    requires i < |p.payloads| && AckCalls(sha, port, env, p, acks, i + 1).Err?
    ensures AckCalls(sha, port, env, p, acks, |p.payloads|) == AckCalls(sha, port, env, p, acks, i + 1)
    decreases |p.payloads| - i
  {
    if i + 1 < |p.payloads| {
      AckCallsStop(sha, port, env, p, acks, i + 1);
    }
  }

  lemma {:induction false} TimeoutCallsStop(port: map<Bytes, Address>, env: Env, p: Packet, i: nat)
    requires i < |p.payloads| && TimeoutCalls(port, env, p, i + 1).Err?
    ensures TimeoutCalls(port, env, p, |p.payloads|) == TimeoutCalls(port, env, p, i + 1)
    decreases |p.payloads| - i
  {
    if i + 1 < |p.payloads| {
      TimeoutCallsStop(port, env, p, i + 1);
    }
  }
}
