/** The router driving attestation and tendermint light clients. */
module ClientUpdates {
  import opened Prelude
  import opened Commitments
  import opened ClientIds
  import opened Router
  import opened RouterRuns
  import A = Attestation
  import T = Tendermint

  // ---------------------------------------------------------------- light-client contracts

  datatype Machine = Attest(ahost: A.Host, a: A.State) | Tender(thost: T.Host, t: T.State)

  predicate Knows(m: Machine, id: Bytes) {
    match m
    case Attest(_, a) => id in a.clients
    case Tender(_, t) => id in t.clients
  }

  /** The flag in the client state, which the contract itself obeys. */
  predicate Frozen(m: Machine, id: Bytes) {
    match m
    case Attest(_, a) => id in a.clients && a.clients[id].frozen
    case Tender(_, t) => id in t.clients && t.clients[id].frozen
  }

  /** The separate entry that the `frozen` query answers from. */
  predicate MarkedFrozen(m: Machine, id: Bytes) {
    match m
    case Attest(_, a) => id in a.frozen
    case Tender(_, t) => id in t.frozen
  }

  function Stamp(m: Machine, id: Bytes, h: U64): Option<U64> {
    match m
    case Attest(_, a) => if (id, h) in a.consensus then Some(a.consensus[(id, h)]) else None
    case Tender(_, t) => if (id, h) in t.consensus then Some(t.consensus[(id, h)].timestamp) else None
  }

  function Root(m: Machine, id: Bytes, h: U64): Option<Bytes> {
    match m
    case Attest(_, _) => None
    case Tender(_, t) => if (id, h) in t.consensus then Some(t.consensus[(id, h)].root) else None
  }

  function Init(m: Machine, id: Bytes, client: Bytes, consensus: Bytes, height: U64): Option<Machine> {
    match m
    case Attest(host, a) =>
      (match A.Initialise(host, a, id, client, consensus, height)
       case Some(a') => Some(Attest(host, a'))
       case None => None)
    case Tender(host, t) =>
      (match T.Initialise(host, t, id, client, consensus, height)
       case Some(t') => Some(Tender(host, t'))
       case None => None)
  }

  function Check(m: Machine, id: Bytes, message: Bytes): Option<bool> {
    match m
    case Attest(host, a) => A.CheckForMisbehaviour(host, a, id, message)
    case Tender(host, t) => T.CheckForMisbehaviour(host, t, id, message)
  }

  function Advance(m: Machine, id: Bytes, message: Bytes): Option<Machine> {
    match m
    case Attest(host, a) =>
      (match A.UpdateState(host, a, id, message)
       case Some(a') => Some(Attest(host, a'))
       case None => None)
    case Tender(host, t) =>
      (match T.UpdateState(host, t, id, message)
       case Some(t') => Some(Tender(host, t'))
       case None => None)
  }

  function Freeze(m: Machine, id: Bytes): Option<Machine> {
    match m
    case Attest(host, a) =>
      (match A.UpdateStateOnMisbehaviour(a, id)
       case Some(a') => Some(Attest(host, a'))
       case None => None)
    case Tender(host, t) =>
      (match T.UpdateStateOnMisbehaviour(t, id)
       case Some(t') => Some(Tender(host, t'))
       case None => None)
  }

  /** The height `update_state` returns. */
  function AdvancedTo(m: Machine, id: Bytes, message: Bytes): U64 {
    match m
    case Attest(host, a) => A.UpdatedHeight(host, a, id, message)
    case Tender(host, _) => T.UpdatedHeight(host, message)
  }

  function ToVerdict(r: Option<bool>): Verdict {
    match r
    case None => Trapped
    case Some(b) => if b then Accepted else Rejected
  }

  function Member(m: Machine, q: Query, value: Bytes): Verdict {
    match m
    case Attest(host, a) => ToVerdict(A.VerifyMembership(host, a, q.client, q.height, q.proof, q.path, value))
    case Tender(_, t) => ToVerdict(T.AcceptsProofs(t, q.client, q.height))
  }

  function NonMember(m: Machine, q: Query): Verdict {
    match m
    case Attest(host, a) => ToVerdict(A.VerifyNonMembership(host, a, q.client, q.height, q.proof, q.path))
    case Tender(_, t) => ToVerdict(T.AcceptsProofs(t, q.client, q.height))
  }

  // ---------------------------------------------------------------- the router with its clients

  /** The router and the light-client contracts of these two kinds, by address. */
  datatype Hub = Hub(router: State, lcs: map<Address, Machine>)

  datatype HubAction =
    | Create(clientType: Bytes, client: Bytes, consensus: Bytes, height: U64)
    | Update(id: Bytes, message: Bytes)
    | Plain(action: Action)

  /** Contracts at other addresses answer as the environment says. */
  function Oracle(hub: Hub, lc: LightClients): LightClients {
    LightClients(
      (q: Query, value: Bytes) => if q.lc in hub.lcs then Member(hub.lcs[q.lc], q, value) else lc.member(q, value),
      (q: Query) => if q.lc in hub.lcs then NonMember(hub.lcs[q.lc], q) else lc.nonMember(q),
      (addr: Address, id: Bytes, h: U64) =>
        if addr !in hub.lcs then lc.timestamp(addr, id, h)
        else match Stamp(hub.lcs[addr], id, h)
          case Some(t) => Some(t)
          case None => Some(0),
      lc.misbehaviour,
      lc.accepts,
      lc.updated)
  }

  function CreateEnv(hub: Hub, env: Env, ty: Bytes, client: Bytes, consensus: Bytes, height: U64): Env {
    var id := Minted(ty, NextClient(hub.router, ty));
    if ty !in hub.router.typeAddr || hub.router.typeAddr[ty] !in hub.lcs || id == None then env
    else env.(lc := env.lc.(accepts := Init(hub.lcs[hub.router.typeAddr[ty]], id.value, client, consensus, height).Some?))
  }

  function ExecCreate(hub: Hub, env: Env, ty: Bytes, client: Bytes, consensus: Bytes, height: U64): Result<Hub, Error> {
    match CreateClient(hub.router, CreateEnv(hub, env, ty, client, consensus, height), ty)
    case Err(e) => Err(e)
    case Ok(st) =>
      var addr := hub.router.typeAddr[ty];
      if addr !in hub.lcs then Ok(hub.(router := st))
      else
        var m := Init(hub.lcs[addr], Minted(ty, NextClient(hub.router, ty)).value, client, consensus, height);
        Ok(Hub(st, hub.lcs[addr := m.value]))
  }

  /** `None` traps; `Some((true, m))` froze, `Some((false, m))` advanced. */
  function Driven(m: Machine, id: Bytes, message: Bytes): Option<(bool, Machine)> {
    match Check(m, id, message)
    case None => None
    case Some(bad) =>
      match (if bad then Freeze(m, id) else Advance(m, id, message))
      case None => None
      case Some(m') => Some((bad, m'))
  }

  function UpdateEnv(hub: Hub, env: Env, id: Bytes, message: Bytes): Env {
    if id !in hub.router.lcAddr || hub.router.lcAddr[id] !in hub.lcs then env
    else
      var m := hub.lcs[hub.router.lcAddr[id]];
      env.(lc := env.lc.(misbehaviour := Check(m, id, message), accepts := Driven(m, id, message).Some?,
                         updated := AdvancedTo(m, id, message)))
  }

  function ExecUpdate(hub: Hub, env: Env, id: Bytes, message: Bytes): Result<Hub, Error> {
    match UpdateClient(hub.router, UpdateEnv(hub, env, id, message), id)
    case Err(e) => Err(e)
    case Ok(st) =>
      var addr := hub.router.lcAddr[id];
      if addr !in hub.lcs then Ok(hub.(router := st))
      else Ok(Hub(st, hub.lcs[addr := Driven(hub.lcs[addr], id, message).value.1]))
  }

  function ExecHub(sha: Hash, hub: Hub, env: Env, a: HubAction): Result<Hub, Error> {
    match a
    case Create(ty, client, consensus, height) => ExecCreate(hub, env, ty, client, consensus, height)
    case Update(id, message) => ExecUpdate(hub, env, id, message)
    case Plain(action) =>
      if action.DoCreateClient? || action.DoUpdateClient? then Err(Trap)
      else match Exec(sha, hub.router, env.(lc := Oracle(hub, env.lc)), action)
        case Err(e) => Err(e)
        case Ok(st) => Ok(hub.(router := st))
  }

  datatype HubTx = HubTx(env: Env, action: HubAction)

  function RunHub(sha: Hash, hub: Hub, txs: seq<HubTx>): Hub {
    if |txs| == 0 then hub
    else
      var mid := RunHub(sha, hub, txs[..|txs| - 1]);
      match ExecHub(sha, mid, txs[|txs| - 1].env, txs[|txs| - 1].action)
      case Ok(hub') => hub'
      case Err(_) => mid
  }

  // ---------------------------------------------------------------- what one contract call does

  /** Client `x` looks the same. */
  ghost predicate Same(m: Machine, m': Machine, x: Bytes) {
    && m.Attest? == m'.Attest?
    && Knows(m, x) == Knows(m', x) && Frozen(m, x) == Frozen(m', x) && MarkedFrozen(m, x) == MarkedFrozen(m', x)
    && (forall h: U64 :: Stamp(m, x, h) == Stamp(m', x, h))
    && (forall h: U64 :: Root(m, x, h) == Root(m', x, h))
  }

  /** Nothing stored for `x` was replaced: timestamps of an attestation client, roots of a tendermint client. */
  ghost predicate Kept(m: Machine, m': Machine, x: Bytes) {
    && m.Attest? == m'.Attest?
    && (m.Attest? ==> forall h: U64 :: Stamp(m, x, h).Some? ==> Stamp(m', x, h) == Stamp(m, x, h))
    && (m.Tender? ==> forall h: U64 :: Root(m, x, h).Some? ==> Root(m', x, h) == Root(m, x, h))
  }

  lemma InitSpares(m: Machine, id: Bytes, client: Bytes, consensus: Bytes, height: U64, x: Bytes)
    requires Init(m, id, client, consensus, height).Some? && x != id
    ensures Same(m, Init(m, id, client, consensus, height).value, x)
  {
  }

  lemma AdvanceSpares(m: Machine, id: Bytes, message: Bytes, x: Bytes)
    requires Advance(m, id, message).Some? && x != id
    ensures Same(m, Advance(m, id, message).value, x)
  {
  }

  lemma FreezeSpares(m: Machine, id: Bytes, x: Bytes)
    requires Freeze(m, id).Some? && x != id
    ensures Same(m, Freeze(m, id).value, x)
  {
  }

  /** `update_state` alone may overwrite. Behind the misbehaviour check it never does: a conflicting
      statement is diverted to freezing, and a frozen client refuses. */
  lemma DrivenClient(m: Machine, id: Bytes, message: Bytes)
    requires Driven(m, id, message).Some?
    ensures var (bad, m') := Driven(m, id, message).value;
            && Knows(m, id) && Knows(m', id) && !Frozen(m, id)
            && Kept(m, m', id)
            && Frozen(m', id) == bad
            && MarkedFrozen(m', id) == (MarkedFrozen(m, id) || bad)
  {
  }

  lemma DrivenSpares(m: Machine, id: Bytes, message: Bytes, x: Bytes)
    requires Driven(m, id, message).Some? && x != id
    ensures Same(m, Driven(m, id, message).value.1, x)
  {
    if Driven(m, id, message).value.0 {
      FreezeSpares(m, id, x);
    } else {
      AdvanceSpares(m, id, message, x);
    }
  }

  // ---------------------------------------------------------------- the invariant

  /** The contract at `addr` holds exactly the clients the router created there. */
  ghost predicate Placed(st: State, lcs: map<Address, Machine>, id: Bytes) {
    && (id in st.frozen ==> id in st.lcAddr)
    && (forall addr :: addr in lcs ==>
          (Knows(lcs[addr], id) <==> id in st.lcAddr && st.lcAddr[id] == addr))
    && (forall addr :: addr in lcs && !Knows(lcs[addr], id) ==> forall h: U64 :: Stamp(lcs[addr], id, h) == None)
  }

  /** The router's flag, the contract's own entry and the flag in the client state. */
  ghost predicate FlagsTied(st: State, lcs: map<Address, Machine>, id: Bytes) {
    id in st.lcAddr && st.lcAddr[id] in lcs ==>
      && (id in st.frozen <==> MarkedFrozen(lcs[st.lcAddr[id]], id))
      && (id in st.frozen ==> Frozen(lcs[st.lcAddr[id]], id))
  }

  ghost predicate ClientOk(hub: Hub, id: Bytes) {
    && Placed(hub.router, hub.lcs, id) && FlagsTied(hub.router, hub.lcs, id)
    && (id !in hub.router.lcAddr ==> forall addr :: addr in hub.lcs ==> !MarkedFrozen(hub.lcs[addr], id))
  }

  ghost predicate HubInv(hub: Hub) {
    IdsMinted(hub.router) && forall id: Bytes :: ClientOk(hub, id)
  }

  /** Light-client contracts just deployed. */
  ghost predicate FreshContracts(lcs: map<Address, Machine>) {
    forall addr :: addr in lcs ==>
      && (lcs[addr].Attest? ==> lcs[addr].a == A.State(map[], map[], {}))
      && (lcs[addr].Tender? ==> lcs[addr].t == T.State(map[], map[], {}))
  }

  lemma FreshHub(admin: Address, lcs: map<Address, Machine>)
    requires FreshContracts(lcs)
    ensures HubInv(Hub(Initial(admin), lcs))
  {
  }

  /** Some run from deployment leads here. */
  ghost predicate Arises(sha: Hash, hub: Hub) {
    exists admin: Address, lcs: map<Address, Machine>, txs: seq<HubTx> ::
      FreshContracts(lcs) && hub == RunHub(sha, Hub(Initial(admin), lcs), txs)
  }
}
