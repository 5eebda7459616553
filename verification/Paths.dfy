/** Provable store keys: client id, one discriminator byte, big-endian sequence. */
module Paths {
  import opened Prelude

  /** What is stored under a provable key. */
  datatype Kind = PacketCommitment | PacketReceipt | AckCommitment

  datatype Path = Path(client: Bytes, kind: Kind, sequence: U64)

  function Discriminator(kind: Kind): Byte {
    match kind
    case PacketCommitment => 0x01
    case PacketReceipt => 0x02
    case AckCommitment => 0x03
  }

  /** The byte key under which the router stores the entry for `p`. */
  function Key(p: Path): (r: Bytes)
    ensures |r| == |p.client| + 9
  {
    p.client + [Discriminator(p.kind)] + U64Bytes(p.sequence)
  }

  const PATH_BUFFER := 128

  /** The 128-byte scratch buffer holds the key; otherwise the contract traps. */
  predicate Fits(client: Bytes) {
    |client| + 9 <= PATH_BUFFER
  }

  /** The gateway's filter on contract-data keys. */
  predicate IsProvable(key: Bytes) {
    |key| >= 10 && 1 <= key[|key| - 9] <= 3
  }

  function Parse(key: Bytes): (p: Path)
    requires IsProvable(key)
    ensures p.client != []
    ensures Key(p) == key
  {
    var n := |key| - 9;
    var kind := if key[n] == 1 then PacketCommitment else if key[n] == 2 then PacketReceipt else AckCommitment;
    var p := Path(key[..n], kind, U64FromBytes(key[n + 1..]));
    assert key == key[..n] + [key[n]] + key[n + 1..];
    p
  }

  lemma KeyInjective(p: Path, q: Path)
    requires Key(p) == Key(q)
    ensures p == q
  {
    var k, l := Key(p), Key(q);
    var n := |k| - 9;
    assert k[..n] == p.client && l[..n] == q.client;
    assert k[n] == Discriminator(p.kind) && l[n] == Discriminator(q.kind);
    assert k[n + 1..] == U64Bytes(p.sequence) && l[n + 1..] == U64Bytes(q.sequence);
  }

  /** `Key` and `Parse` are mutually inverse between the paths with a non-empty
      client id and the keys the gateway accepts. */
  lemma KeyParseBijection(p: Path, key: Bytes)
    ensures IsProvable(Key(p)) <==> p.client != []
    ensures p.client != [] ==> Parse(Key(p)) == p
    ensures IsProvable(key) <==> exists q: Path :: q.client != [] && Key(q) == key
    ensures IsProvable(key) ==> forall q: Path :: Key(q) == key <==> q == Parse(key)
  {
    assert Key(p)[|Key(p)| - 9] == Discriminator(p.kind);
    if p.client != [] {
      KeyInjective(p, Parse(Key(p)));
    }
    if IsProvable(key) {
      assert Key(Parse(key)) == key;
      forall q: Path | Key(q) == key ensures q == Parse(key) {
        KeyInjective(q, Parse(key));
      }
    }
    forall q: Path | q.client != [] && Key(q) == key ensures IsProvable(key) {
      assert Key(q)[|Key(q)| - 9] == Discriminator(q.kind);
    }
  }

  /** Writes the key into the fixed buffer, as the router does; `None` is the trap
      when the client id leaves no room for the nine-byte tail. */
  method BuildKey(p: Path) returns (r: Option<Bytes>)
    ensures r == if Fits(p.client) then Some(Key(p)) else None
  {
    var n := |p.client|;
    if n + 9 > PATH_BUFFER {
      return None;
    }
    var buf := new Byte[PATH_BUFFER](_ => 0);
    for i := 0 to n
      invariant forall k :: 0 <= k < i ==> buf[k] == p.client[k]
    {
      buf[i] := p.client[i];
    }
    buf[n] := Discriminator(p.kind);
    var seqBytes := U64Bytes(p.sequence);
    for i := 0 to 8
      invariant forall k :: 0 <= k < n ==> buf[k] == p.client[k]
      invariant buf[n] == Discriminator(p.kind)
      invariant forall k :: 0 <= k < i ==> buf[n + 1 + k] == seqBytes[k]
    {
      buf[n + 1 + i] := seqBytes[i];
    }
    assert buf[..n] == p.client && buf[n + 1..n + 9] == seqBytes;
    assert buf[..n + 9] == buf[..n] + [buf[n]] + buf[n + 1..n + 9];
    r := Some(buf[..n + 9]);
  }

  /** The key as the counterparty's light client knows it: below a store prefix. */
  function CounterpartyKey(prefix: seq<Bytes>, p: Path): Bytes {
    Concat(prefix) + Key(p)
  }
}
