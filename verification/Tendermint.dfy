/** The 07-tendermint light client: headers, consensus states and freezing. */
module Tendermint {
  import opened Prelude

  datatype Error =
    | ClientNotInitialised | ClientFrozen | InvalidClientState | InvalidConsensusState | InvalidHeader
    | HeaderHeightNotAfterTrusted

  datatype Height = Height(revision: U64, height: U64)

  /** `params` stands for the chain id, trust level, periods and proof specs, which nothing reads. */
  datatype ClientState = ClientState(params: Bytes, latest: Height, frozen: bool, frozenHeight: Height)

  datatype ConsensusState = ConsensusState(timestamp: U64, nextValidators: Bytes, root: Bytes)

  datatype Header = Header(target: Height, timestamp: U64, nextValidators: Bytes, appHash: Bytes)

  datatype Host = Host(
    clientState: Bytes -> Option<ClientState>,
    consensus: Bytes -> Option<ConsensusState>,
    header: Bytes -> Option<Header>)

  datatype State = State(clients: map<Bytes, ClientState>, consensus: map<(Bytes, U64), ConsensusState>, frozen: set<Bytes>)

  // ---------------------------------------------------------------- transitions; `None` traps

  function Initialise(host: Host, st: State, id: Bytes, client: Bytes, consensus: Bytes, height: U64): Option<State> {
    match (host.clientState(client), host.consensus(consensus))
    case (Some(cs), Some(cons)) =>
      Some(st.(clients := st.clients[id := cs], consensus := st.consensus[(id, height) := cons]))
    case _ => None
  }

  function CheckForMisbehaviour(host: Host, st: State, id: Bytes, message: Bytes): Option<bool> {
    if id !in st.clients then None
    else if st.clients[id].frozen then Some(false)
    else match host.header(message)
      case None => None
      case Some(h) => Some((id, h.target.height) in st.consensus && st.consensus[(id, h.target.height)].root != h.appHash)
  }

  function UpdateState(host: Host, st: State, id: Bytes, message: Bytes): Option<State> {
    if id !in st.clients || st.clients[id].frozen then None
    else match host.header(message)
      case None => None
      case Some(h) =>
        if h.target.height <= st.clients[id].latest.height then None
        else Some(st.(consensus := st.consensus[(id, h.target.height) := ConsensusState(h.timestamp, h.nextValidators, h.appHash)],
                      clients := st.clients[id := st.clients[id].(latest := h.target)]))
  }

  /** The height an update returns: the header's. */
  function UpdatedHeight(host: Host, message: Bytes): U64 {
    match host.header(message)
    case Some(h) => h.target.height
    case None => 0
  }

  function UpdateStateOnMisbehaviour(st: State, id: Bytes): Option<State> {
    if id !in st.clients then None
    else
      var cs := st.clients[id];
      Some(st.(clients := st.clients[id := cs.(frozen := true, frozenHeight := cs.latest)], frozen := st.frozen + {id}))
  }

  /** Both proof checks: a known height and a client that is not frozen. The proof itself is not examined. */
  function AcceptsProofs(st: State, id: Bytes, height: U64): Option<bool> {
    if (id, height) !in st.consensus then Some(false)
    else if id !in st.clients then None
    else Some(!st.clients[id].frozen)
  }

  function TimestampAt(st: State, id: Bytes, height: U64): U64 {
    if (id, height) in st.consensus then st.consensus[(id, height)].timestamp else 0
  }

  // ---------------------------------------------------------------- write-once consensus states

  /** Every height stored for the client is at most its latest height. */
  ghost predicate BelowLatest(st: State, id: Bytes) {
    id in st.clients && forall h: U64 :: (id, h) in st.consensus ==> h <= st.clients[id].latest.height
  }

  /** A client whose stored heights start at or below its latest height keeps them so, and an
      update adds a consensus state and changes none. */
  lemma UpdateAddsOnly(host: Host, st: State, id: Bytes, message: Bytes)
    requires BelowLatest(st, id) && UpdateState(host, st, id, message).Some?
    ensures var st' := UpdateState(host, st, id, message).value;
            && BelowLatest(st', id)
            && st'.clients[id].latest.height > st.clients[id].latest.height
            && forall k :: k in st.consensus ==> k in st'.consensus && st'.consensus[k] == st.consensus[k]
  {
  }

  /** Initialisation establishes that exactly when the height it is given does not exceed the latest
      height in the client state it is given; the contract does not compare the two. */
  lemma InitialiseBelowLatest(host: Host, st: State, id: Bytes, client: Bytes, consensus: Bytes, height: U64)
    requires forall h: U64 :: (id, h) !in st.consensus
    requires Initialise(host, st, id, client, consensus, height).Some?
    ensures BelowLatest(Initialise(host, st, id, client, consensus, height).value, id)
       <==> height <= host.clientState(client).value.latest.height
  {
    var st' := Initialise(host, st, id, client, consensus, height).value;
    assert (id, height) in st'.consensus;
  }
}

/** The tendermint contract: persistent entries rewritten in place. */
module TendermintContract {
  import opened Prelude
  import opened Tendermint

  class TendermintLightClient {
    const host: Host
    var clients: map<Bytes, ClientState>
    var consensus: map<(Bytes, U64), ConsensusState>
    var frozenIds: set<Bytes>

    ghost function View(): State
      reads this
    {
      State(clients, consensus, frozenIds)
    }

    constructor (host: Host)
      ensures this.host == host && View() == State(map[], map[], {})
    {
      this.host := host;
      clients, consensus, frozenIds := map[], map[], {};
    }

    method Initialise(id: Bytes, client: Bytes, initial: Bytes, height: U64) returns (r: Result<(), Error>)
      modifies this`clients, this`consensus
      ensures Follows(Tendermint.Initialise(host, old(View()), id, client, initial, height), r, old(View()), View())
    {
      var cs := host.clientState(client);
      if cs == None {
        return Err(InvalidClientState);
      }
      var cons := host.consensus(initial);
      if cons == None {
        return Err(InvalidConsensusState);
      }
      clients := clients[id := cs.value];
      consensus := consensus[(id, height) := cons.value];
      r := Ok(());
    }

    method CheckForMisbehaviour(id: Bytes, message: Bytes) returns (r: Result<bool, Error>)
      ensures r.Ok? <==> Tendermint.CheckForMisbehaviour(host, View(), id, message).Some?
      ensures r.Ok? ==> Some(r.value) == Tendermint.CheckForMisbehaviour(host, View(), id, message)
    {
      if id !in clients {
        return Err(ClientNotInitialised);
      }
      if clients[id].frozen {
        return Ok(false);
      }
      var header := host.header(message);
      if header == None {
        return Err(InvalidHeader);
      }
      var key := (id, header.value.target.height);
      r := Ok(if key in consensus then consensus[key].root != header.value.appHash else false);
    }

    method UpdateState(id: Bytes, message: Bytes) returns (r: Result<U64, Error>)
      modifies this`clients, this`consensus
      ensures Follows(Tendermint.UpdateState(host, old(View()), id, message), r, old(View()), View())
      ensures r.Ok? ==> id in clients && r.value == UpdatedHeight(host, message) == clients[id].latest.height
    {
      if id !in clients {
        return Err(ClientNotInitialised);
      }
      var cs := clients[id];
      if cs.frozen {
        return Err(ClientFrozen);
      }
      var header := host.header(message);
      if header == None {
        return Err(InvalidHeader);
      }
      var h := header.value;
      if h.target.height <= cs.latest.height {
        return Err(HeaderHeightNotAfterTrusted);
      }
      consensus := consensus[(id, h.target.height) := ConsensusState(h.timestamp, h.nextValidators, h.appHash)];
      clients := clients[id := cs.(latest := h.target)];
      r := Ok(h.target.height);
    }

    method UpdateStateOnMisbehaviour(id: Bytes) returns (r: Result<(), Error>)
      modifies this`clients, this`frozenIds
      ensures Follows(Tendermint.UpdateStateOnMisbehaviour(old(View()), id), r, old(View()), View())
    {
      if id !in clients {
        return Err(ClientNotInitialised);
      }
      var cs := clients[id];
      clients := clients[id := cs.(frozen := true, frozenHeight := cs.latest)];
      frozenIds := frozenIds + {id};
      r := Ok(());
    }

    method VerifyMembership(id: Bytes, height: U64) returns (r: Result<bool, Error>)
      ensures r.Ok? <==> AcceptsProofs(View(), id, height).Some?
      ensures r.Ok? ==> Some(r.value) == AcceptsProofs(View(), id, height)
    {
      if (id, height) !in consensus {
        return Ok(false);
      }
      if id !in clients {
        return Err(ClientNotInitialised);
      }
      r := Ok(!clients[id].frozen);
    }
  }
}
