/** Where every registration in a reachable router comes from, and exactly when one is accepted. */
module Registrations {
  import opened Prelude
  import opened ClientIds
  import opened Commitments
  import opened Router
  import opened RouterRuns

  // ---------------------------------------------------------------- exactly when

  lemma PortExactly(st: State, env: Env, port: Bytes, app: Address)
    ensures var r := RegisterPort(st, env, port, app);
            && (r.Ok? <==> st.admin in env.auth && Validate(port) == None && port !in st.port)
            && (r.Ok? ==> r.value.port == st.port[port := app])
  {
  }

  lemma TypeExactly(st: State, env: Env, ty: Bytes, lc: Address)
    ensures var r := RegisterClientType(st, env, ty, lc);
            && (r.Ok? <==> st.admin in env.auth && Validate(ty) == None)
            && (r.Ok? ==> r.value.typeAddr == st.typeAddr[ty := lc])
  {
  }

  /** The id must fit into 64 bytes, which it always does for types of at most 53. */
  lemma ClientExactly(st: State, env: Env, ty: Bytes)
    ensures var r := CreateClient(st, env, ty);
            var n := NextClient(st, ty);
            var id := ClientId(ty, n);
            && (r.Ok? <==> ty in st.typeAddr && n < U32_MAX && |ty| + 1 + |Digits(n)| <= 64 && env.lc.accepts)
            && (r.Ok? ==> r.value.clientType == st.clientType[id := ty] && r.value.lcAddr == st.lcAddr[id := st.typeAddr[ty]]
                          && NextClient(r.value, ty) == n + 1)
            && (|ty| <= 53 ==> |ty| + 1 + |Digits(n)| <= 64)
  {
    U32DigitsAtMostTen(NextClient(st, ty));
  }

  lemma CounterpartyExactly(st: State, client: Bytes, peer: Bytes, prefix: seq<Bytes>)
    ensures var r := RegisterCounterparty(st, client, peer, prefix);
            && (r.Ok? <==> Validate(peer) == None && client in st.clientType && client !in st.counterparty)
            && (r.Ok? ==> r.value.counterparty == st.counterparty[client := Counterparty(peer, prefix)])
  {
  }

  lemma UpdateExactly(st: State, env: Env, client: Bytes)
    ensures var r := UpdateClient(st, env, client);
            && (r.Ok? <==> client !in st.frozen && client in st.lcAddr && env.lc.misbehaviour.Some? && env.lc.accepts)
            && (r.Ok? ==> r.value.frozen == st.frozen + (if env.lc.misbehaviour == Some(true) then {client} else {}))
  {
  }

  // ---------------------------------------------------------------- from where

  ghost predicate PortOrigin(admin: Address, txs: seq<Tx>, port: Bytes, app: Address) {
    Validate(port) == None && exists tx :: tx in txs && tx.action == DoRegisterPort(port, app) && admin in tx.env.auth
  }

  ghost predicate TypeOrigin(admin: Address, txs: seq<Tx>, ty: Bytes, lc: Address) {
    Validate(ty) == None && exists tx :: tx in txs && tx.action == DoRegisterClientType(ty, lc) && admin in tx.env.auth
  }

  ghost predicate ClientOrigin(admin: Address, txs: seq<Tx>, ty: Bytes, lc: Address) {
    TypeOrigin(admin, txs, ty, lc) && exists tx :: tx in txs && tx.action == DoCreateClient(ty) && tx.env.lc.accepts
  }

  ghost predicate CounterpartyOrigin(txs: seq<Tx>, client: Bytes, cp: Counterparty) {
    Validate(cp.clientId) == None && exists tx :: tx in txs && tx.action == DoRegisterCounterparty(client, cp.clientId, cp.prefix)
  }

  ghost predicate FreezeOrigin(txs: seq<Tx>, client: Bytes) {
    exists tx :: tx in txs && tx.action == DoUpdateClient(client) && tx.env.lc.misbehaviour == Some(true)
  }

  /** Every port and client type was registered by the administrator, every client was created by its type's
      light client as registered, every counterparty has a valid id, and every frozen client was frozen by
      evidence. */
  ghost predicate Origins(admin: Address, txs: seq<Tx>, st: State) {
    && st.admin == admin
    && PortsFrom(admin, txs, st.port) && TypesFrom(admin, txs, st.typeAddr) && ClientsFrom(admin, txs, st.clientType, st.lcAddr)
    && CounterpartiesFrom(txs, st.counterparty) && FrozenFrom(txs, st.frozen)
  }

  ghost predicate PortsFrom(admin: Address, txs: seq<Tx>, port: map<Bytes, Address>) {
    forall p :: p in port ==> PortOrigin(admin, txs, p, port[p])
  }

  ghost predicate TypesFrom(admin: Address, txs: seq<Tx>, typeAddr: map<Bytes, Address>) {
    forall ty :: ty in typeAddr ==> TypeOrigin(admin, txs, ty, typeAddr[ty])
  }

  ghost predicate ClientsFrom(admin: Address, txs: seq<Tx>, clientType: map<Bytes, Bytes>, lcAddr: map<Bytes, Address>) {
    lcAddr.Keys == clientType.Keys && forall id :: id in clientType ==> ClientOrigin(admin, txs, clientType[id], lcAddr[id])
  }

  ghost predicate CounterpartiesFrom(txs: seq<Tx>, counterparty: map<Bytes, Counterparty>) {
    forall id :: id in counterparty ==> CounterpartyOrigin(txs, id, counterparty[id])
  }

  ghost predicate FrozenFrom(txs: seq<Tx>, frozen: set<Bytes>) {
    forall id :: id in frozen ==> FreezeOrigin(txs, id)
  }

  lemma PortOriginStands(admin: Address, txs: seq<Tx>, tx: Tx, port: Bytes, app: Address)
    requires PortOrigin(admin, txs, port, app)
    ensures PortOrigin(admin, txs + [tx], port, app)
  {
    var t :| t in txs && t.action == DoRegisterPort(port, app) && admin in t.env.auth;
    assert t in txs + [tx];
  }

  lemma TypeOriginStands(admin: Address, txs: seq<Tx>, tx: Tx, ty: Bytes, lc: Address)
    requires TypeOrigin(admin, txs, ty, lc)
    ensures TypeOrigin(admin, txs + [tx], ty, lc)
  {
    var t :| t in txs && t.action == DoRegisterClientType(ty, lc) && admin in t.env.auth;
    assert t in txs + [tx];
  }

  lemma ClientOriginStands(admin: Address, txs: seq<Tx>, tx: Tx, ty: Bytes, lc: Address)
    requires ClientOrigin(admin, txs, ty, lc)
    ensures ClientOrigin(admin, txs + [tx], ty, lc)
  {
    TypeOriginStands(admin, txs, tx, ty, lc);
    var t :| t in txs && t.action == DoCreateClient(ty) && t.env.lc.accepts;
    assert t in txs + [tx];
  }

  lemma CounterpartyOriginStands(txs: seq<Tx>, tx: Tx, client: Bytes, cp: Counterparty)
    requires CounterpartyOrigin(txs, client, cp)
    ensures CounterpartyOrigin(txs + [tx], client, cp)
  {
    var t :| t in txs && t.action == DoRegisterCounterparty(client, cp.clientId, cp.prefix);
    assert t in txs + [tx];
  }

  lemma FreezeOriginStands(txs: seq<Tx>, tx: Tx, client: Bytes)
    requires FreezeOrigin(txs, client)
    ensures FreezeOrigin(txs + [tx], client)
  {
    var t :| t in txs && t.action == DoUpdateClient(client) && t.env.lc.misbehaviour == Some(true);
    assert t in txs + [tx];
  }

  lemma OriginsStand(admin: Address, txs: seq<Tx>, st: State, tx: Tx)
    requires Origins(admin, txs, st)
    ensures Origins(admin, txs + [tx], st)
  {
    forall port | port in st.port ensures PortOrigin(admin, txs + [tx], port, st.port[port]) {
      PortOriginStands(admin, txs, tx, port, st.port[port]);
    }
    forall ty | ty in st.typeAddr ensures TypeOrigin(admin, txs + [tx], ty, st.typeAddr[ty]) {
      TypeOriginStands(admin, txs, tx, ty, st.typeAddr[ty]);
    }
    forall id | id in st.clientType ensures ClientOrigin(admin, txs + [tx], st.clientType[id], st.lcAddr[id]) {
      ClientOriginStands(admin, txs, tx, st.clientType[id], st.lcAddr[id]);
    }
    forall id | id in st.counterparty ensures CounterpartyOrigin(txs + [tx], id, st.counterparty[id]) {
      CounterpartyOriginStands(txs, tx, id, st.counterparty[id]);
    }
    forall id | id in st.frozen ensures FreezeOrigin(txs + [tx], id) {
      FreezeOriginStands(txs, tx, id);
    }
  }

  lemma SameRegistrations(admin: Address, txs: seq<Tx>, st: State, st': State)
    requires Origins(admin, txs, st) && st'.admin == st.admin && st'.port == st.port && st'.typeAddr == st.typeAddr
    requires st'.clientType == st.clientType && st'.lcAddr == st.lcAddr && st'.counterparty == st.counterparty && st'.frozen == st.frozen
    ensures Origins(admin, txs, st')
  {
  }

  lemma NewPort(admin: Address, txs: seq<Tx>, st: State, env: Env, port: Bytes, app: Address, st': State)
    requires Origins(admin, txs, st) && Tx(env, DoRegisterPort(port, app)) in txs && RegisterPort(st, env, port, app) == Ok(st')
    ensures Origins(admin, txs, st')
  {
    assert PortOrigin(admin, txs, port, app);
    assert PortsFrom(admin, txs, st'.port);
  }

  lemma NewType(admin: Address, txs: seq<Tx>, st: State, env: Env, ty: Bytes, lc: Address, st': State)
    requires Origins(admin, txs, st) && Tx(env, DoRegisterClientType(ty, lc)) in txs && RegisterClientType(st, env, ty, lc) == Ok(st')
    ensures Origins(admin, txs, st')
  {
    assert TypeOrigin(admin, txs, ty, lc);
    assert TypesFrom(admin, txs, st'.typeAddr);
  }

  lemma NewClient(admin: Address, txs: seq<Tx>, st: State, env: Env, ty: Bytes, st': State)
    requires Origins(admin, txs, st) && Tx(env, DoCreateClient(ty)) in txs && CreateClient(st, env, ty) == Ok(st')
    ensures Origins(admin, txs, st')
  {
    ClientsGrow(admin, txs, st.clientType, st.lcAddr, Minted(ty, NextClient(st, ty)).value, ty, st.typeAddr[ty]);
  }

  lemma ClientsGrow(admin: Address, txs: seq<Tx>, clientType: map<Bytes, Bytes>, lcAddr: map<Bytes, Address>, id: Bytes, ty: Bytes, lc: Address)
    requires ClientsFrom(admin, txs, clientType, lcAddr) && ClientOrigin(admin, txs, ty, lc)
    ensures ClientsFrom(admin, txs, clientType[id := ty], lcAddr[id := lc])
  {
    var types, addrs := clientType[id := ty], lcAddr[id := lc];
    forall x | x in types ensures ClientOrigin(admin, txs, types[x], addrs[x]) {
      if x != id {
        assert ClientOrigin(admin, txs, clientType[x], lcAddr[x]);
      }
    }
  }

  lemma NewCounterparty(admin: Address, txs: seq<Tx>, st: State, env: Env, client: Bytes, peer: Bytes, prefix: seq<Bytes>, st': State)
    requires Origins(admin, txs, st) && Tx(env, DoRegisterCounterparty(client, peer, prefix)) in txs
    requires RegisterCounterparty(st, client, peer, prefix) == Ok(st')
    ensures Origins(admin, txs, st')
  {
    CounterpartiesGrow(txs, st.counterparty, client, Counterparty(peer, prefix));
  }

  lemma CounterpartiesGrow(txs: seq<Tx>, counterparty: map<Bytes, Counterparty>, id: Bytes, cp: Counterparty)
    requires CounterpartiesFrom(txs, counterparty) && CounterpartyOrigin(txs, id, cp)
    ensures CounterpartiesFrom(txs, counterparty[id := cp])
  {
  }

  lemma NewFreeze(admin: Address, txs: seq<Tx>, st: State, env: Env, client: Bytes, st': State)
    requires Origins(admin, txs, st) && Tx(env, DoUpdateClient(client)) in txs && UpdateClient(st, env, client) == Ok(st')
    ensures Origins(admin, txs, st')
  {
    if env.lc.misbehaviour == Some(true) {
      FrozenGrow(txs, st.frozen, client);
    }
  }

  lemma FrozenGrow(txs: seq<Tx>, frozen: set<Bytes>, id: Bytes)
    requires FrozenFrom(txs, frozen) && FreezeOrigin(txs, id)
    ensures FrozenFrom(txs, frozen + {id})
  {
  }

  lemma RegistrationHasOrigin(sha: Hash, admin: Address, txs: seq<Tx>, st: State, tx: Tx, st': State)
    requires Origins(admin, txs, st) && tx in txs && IsRegistration(tx.action) && Exec(sha, st, tx.env, tx.action) == Ok(st')
    ensures Origins(admin, txs, st')
  {
    assert tx == Tx(tx.env, tx.action);
    match tx.action
    case DoRegisterPort(port, app) => NewPort(admin, txs, st, tx.env, port, app, st');
    case DoRegisterClientType(ty, lc) => NewType(admin, txs, st, tx.env, ty, lc, st');
    case DoCreateClient(ty) => NewClient(admin, txs, st, tx.env, ty, st');
    case DoRegisterCounterparty(client, peer, prefix) => NewCounterparty(admin, txs, st, tx.env, client, peer, prefix, st');
    case DoUpdateClient(client) => NewFreeze(admin, txs, st, tx.env, client, st');
  }

  lemma PacketsRegisterNothing(sha: Hash, st: State, env: Env, a: Action)
    requires !IsRegistration(a) && Exec(sha, st, env, a).Ok?
    ensures var st' := Exec(sha, st, env, a).value;
            && st'.admin == st.admin && st'.port == st.port && st'.typeAddr == st.typeAddr
            && st'.clientType == st.clientType && st'.lcAddr == st.lcAddr
            && st'.counterparty == st.counterparty && st'.frozen == st.frozen
  {
    match a
    case DoSend(client, timeout, payloads) => SendSends(sha, st, env, client, timeout, payloads);
    case DoRecv(p, proof, height) => RecvReceives(sha, st, env, p, proof, height);
    case DoWriteAck(client, sequence, acks) =>
    case DoAcknowledge(p, acks, proof, height) => AcknowledgeSettles(sha, st, env, p, acks, proof, height);
    case DoTimeout(p, proof, height) => TimeoutSettles(sha, st, env, p, proof, height);
  }

  lemma {:induction false} EveryRegistrationHasOrigin(sha: Hash, admin: Address, txs: seq<Tx>)
    ensures Origins(admin, txs, Run(sha, Initial(admin), txs))
  {
    if |txs| > 0 {
      var front, tx := txs[..|txs| - 1], txs[|txs| - 1];
      var st := Run(sha, Initial(admin), front);
      EveryRegistrationHasOrigin(sha, admin, front);
      assert txs == front + [tx];
      OriginsStand(admin, front, st, tx);
      var r := Exec(sha, st, tx.env, tx.action);
      if r.Ok? {
        if IsRegistration(tx.action) {
          RegistrationHasOrigin(sha, admin, txs, st, tx, r.value);
        } else {
          PacketsRegisterNothing(sha, st, tx.env, tx.action);
          SameRegistrations(admin, txs, st, r.value);
        }
      }
    }
  }

  // ---------------------------------------------------------------- ids as counterparties

  /** "client" and "channel" are the valid types whose ids no counterparty registration accepts. */
  predicate Reserved(ty: Bytes) {
    ty == [99, 108, 105, 101, 110, 116] || ty == [99, 104, 97, 110, 110, 101, 108]
  }

  /** An id that is minted for a valid type can be named as a counterparty by the other chain if
      and only if the type is neither "client" nor "channel". */
  lemma MintedIdsAreValid(ty: Bytes, n: U32)
    requires Validate(ty) == None && Minted(ty, n).Some?
    ensures Validate(ClientId(ty, n)) == None <==> !Reserved(ty)
  {
    var id := ClientId(ty, n);
    U32DigitsAtMostTen(n);
    assert id[..|ty|] == ty && id[|ty|] == DASH;
    assert forall i :: 0 <= i < |id| ==> AllowedChar(id[i]) by {
      forall i | 0 <= i < |id| ensures AllowedChar(id[i]) {
        if i < |ty| {
          assert id[i] == ty[i];
        } else if i > |ty| {
          assert id[i] == Digits(n)[i - |ty| - 1];
        }
      }
    }
    PrefixOfId(CLIENT_PREFIX, ty, n);
    PrefixOfId(CHANNEL_PREFIX, ty, n);
  }

  /** A prefix that ends in its only dash starts the id exactly when it starts the type or is type and dash. */
  lemma PrefixOfId(prefix: Bytes, ty: Bytes, n: U32)
    requires |prefix| > 0 && prefix[|prefix| - 1] == DASH
    ensures prefix <= ClientId(ty, n) <==> prefix <= ty || prefix == ty + [DASH]
  {
    var id := ClientId(ty, n);
    var k := |prefix|;
    if k <= |ty| {
      assert id[..k] == ty[..k];
    } else if k == |ty| + 1 {
      assert id[..k] == ty + [DASH];
    } else if k <= |id| {
      assert id[k - 1] == Digits(n)[k - 1 - |ty| - 1];
    }
  }
}
