/** Packet and acknowledgement commitments and what they bind. */
module Commitments {
  import opened Prelude

  datatype Payload = Payload(
    sourcePort: Bytes,
    destPort: Bytes,
    version: Bytes,
    encoding: Bytes,
    value: Bytes)

  datatype Packet = Packet(
    sequence: U64,
    sourceClient: Bytes,
    destClient: Bytes,
    timeout: U64,
    payloads: seq<Payload>)

  const VERSION_PREFIX: Byte := 0x02

  const STRING_BUFFER := 256

  /** Strings are copied into a 256-byte buffer before hashing; longer ones trap. */
  predicate Committable(p: Packet) {
    && |p.destClient| <= STRING_BUFFER
    && forall i :: 0 <= i < |p.payloads| ==> CommittablePayload(p.payloads[i])
  }

  predicate CommittablePayload(p: Payload) {
    && |p.sourcePort| <= STRING_BUFFER
    && |p.destPort| <= STRING_BUFFER
    && |p.version| <= STRING_BUFFER
    && |p.encoding| <= STRING_BUFFER
  }

  function PayloadFields(p: Payload): seq<Bytes> {
    [p.sourcePort, p.destPort, p.version, p.encoding, p.value]
  }

  function Digests(sha: Hash, xs: seq<Bytes>): (r: seq<Digest>)
    ensures |r| == |xs|
    ensures forall i :: 0 <= i < |xs| ==> r[i] == sha(xs[i])
  {
    seq(|xs|, i requires 0 <= i < |xs| => sha(xs[i]))
  }

  function CommitPayload(sha: Hash, p: Payload): Digest {
    sha(Concat(Digests(sha, PayloadFields(p))))
  }

  function PayloadDigests(sha: Hash, ps: seq<Payload>): (r: seq<Digest>)
    ensures |r| == |ps|
    ensures forall i :: 0 <= i < |ps| ==> r[i] == CommitPayload(sha, ps[i])
  {
    seq(|ps|, i requires 0 <= i < |ps| => CommitPayload(sha, ps[i]))
  }

  /** The three strings whose digests, in this order, follow the version byte. */
  function PacketFields(sha: Hash, p: Packet): seq<Bytes> {
    [p.destClient, U64Bytes(p.timeout), Concat(PayloadDigests(sha, p.payloads))]
  }

  function PacketPreimage(sha: Hash, p: Packet): Bytes {
    [VERSION_PREFIX] + Concat(Digests(sha, PacketFields(sha, p)))
  }

  function CommitPacket(sha: Hash, p: Packet): Digest {
    sha(PacketPreimage(sha, p))
  }

  function AckPreimage(sha: Hash, acks: seq<Bytes>): Bytes {
    [VERSION_PREFIX] + Concat(Digests(sha, acks))
  }

  function CommitAck(sha: Hash, acks: seq<Bytes>): Digest {
    sha(AckPreimage(sha, acks))
  }

  // ---------------------------------------------------------------- binding

  /** Two different lists with equal digests: the first differing entry collides. */
  function ListEvidence(sha: Hash, xs: seq<Bytes>, ys: seq<Bytes>): (e: Evidence)
    requires xs != ys
    requires Digests(sha, xs) == Digests(sha, ys)
    ensures Breaks(sha, e)
  {
    var dx, dy := Digests(sha, xs), Digests(sha, ys);
    assert sha(xs[0]) == dx[0] == dy[0] == sha(ys[0]);
    if xs[0] != ys[0] then
      Collision(xs[0], ys[0])
    else
      assert xs == [xs[0]] + xs[1..] && ys == [ys[0]] + ys[1..];
      assert Digests(sha, xs[1..]) == dx[1..] && Digests(sha, ys[1..]) == dy[1..];
      ListEvidence(sha, xs[1..], ys[1..])
  }

  function PayloadEvidence(sha: Hash, a: Payload, b: Payload): (e: Evidence)
    requires a != b
    requires CommitPayload(sha, a) == CommitPayload(sha, b)
    ensures Breaks(sha, e)
  {
    var da, db := Digests(sha, PayloadFields(a)), Digests(sha, PayloadFields(b));
    if Concat(da) != Concat(db) then
      Collision(Concat(da), Concat(db))
    else
      ConcatOfDigestsInjective(da, db);
      assert PayloadFields(a)[0] == a.sourcePort && PayloadFields(a)[1] == a.destPort
          && PayloadFields(a)[2] == a.version && PayloadFields(a)[3] == a.encoding && PayloadFields(a)[4] == a.value;
      assert PayloadFields(b)[0] == b.sourcePort && PayloadFields(b)[1] == b.destPort
          && PayloadFields(b)[2] == b.version && PayloadFields(b)[3] == b.encoding && PayloadFields(b)[4] == b.value;
      ListEvidence(sha, PayloadFields(a), PayloadFields(b))
  }

  function PayloadsEvidence(sha: Hash, ps: seq<Payload>, qs: seq<Payload>): (e: Evidence)
    requires ps != qs
    requires PayloadDigests(sha, ps) == PayloadDigests(sha, qs)
    ensures Breaks(sha, e)
  {
    var dp, dq := PayloadDigests(sha, ps), PayloadDigests(sha, qs);
    assert |ps| == |dp| == |dq| == |qs|;
    assert CommitPayload(sha, ps[0]) == dp[0] == dq[0] == CommitPayload(sha, qs[0]);
    if ps[0] != qs[0] then
      PayloadEvidence(sha, ps[0], qs[0])
    else
      assert ps == [ps[0]] + ps[1..] && qs == [qs[0]] + qs[1..];
      assert PayloadDigests(sha, ps[1..]) == dp[1..] && PayloadDigests(sha, qs[1..]) == dq[1..];
      PayloadsEvidence(sha, ps[1..], qs[1..])
  }

  /** The packet commitment binds destination client, timeout and every payload. */
  predicate SameCommitted(p: Packet, q: Packet) {
    p.destClient == q.destClient && p.timeout == q.timeout && p.payloads == q.payloads
  }

  /** From two packets with one commitment that differ in a committed field, a hash
      collision is computed from the hash inputs of the two commitments alone. */
  function PacketEvidence(sha: Hash, p: Packet, q: Packet): (e: Evidence)
    requires !SameCommitted(p, q)
    requires CommitPacket(sha, p) == CommitPacket(sha, q)
    ensures Breaks(sha, e)
  {
    var fp, fq := PacketFields(sha, p), PacketFields(sha, q);
    var dp, dq := Digests(sha, fp), Digests(sha, fq);
    var pp, pq := PacketPreimage(sha, p), PacketPreimage(sha, q);
    if pp != pq then
      Collision(pp, pq)
    else
      assert Concat(dp) == pp[1..] && Concat(dq) == pq[1..];
      ConcatOfDigestsInjective(dp, dq);
      if fp != fq then
        ListEvidence(sha, fp, fq)
      else
        assert fp[0] == fq[0] && fp[1] == fq[1] && fp[2] == fq[2];
        assert p.timeout == FromBigEndian(fp[1]) == FromBigEndian(fq[1]) == q.timeout;
        ConcatOfDigestsInjective(PayloadDigests(sha, p.payloads), PayloadDigests(sha, q.payloads));
        PayloadsEvidence(sha, p.payloads, q.payloads)
  }

  /** The acknowledgement commitment binds the whole list of acknowledgements. */
  function AckEvidence(sha: Hash, xs: seq<Bytes>, ys: seq<Bytes>): (e: Evidence)
    requires xs != ys
    requires CommitAck(sha, xs) == CommitAck(sha, ys)
    ensures Breaks(sha, e)
  {
    var px, py := AckPreimage(sha, xs), AckPreimage(sha, ys);
    if px != py then
      Collision(px, py)
    else
      assert Concat(Digests(sha, xs)) == px[1..] && Concat(Digests(sha, ys)) == py[1..];
      ConcatOfDigestsInjective(Digests(sha, xs), Digests(sha, ys));
      ListEvidence(sha, xs, ys)
  }

  // ---------------------------------------------------------------- the hashing loops

  method HashPayload(sha: Hash, p: Payload) returns (r: Option<Digest>)
    ensures r == if CommittablePayload(p) then Some(CommitPayload(sha, p)) else None
  {
    if |p.sourcePort| > STRING_BUFFER || |p.destPort| > STRING_BUFFER
       || |p.version| > STRING_BUFFER || |p.encoding| > STRING_BUFFER {
      return None;
    }
    var buf := sha(p.sourcePort) + sha(p.destPort) + sha(p.version) + sha(p.encoding) + sha(p.value);
    FiveDigests(sha, p);
    r := Some(sha(buf));
  }

  /** Appends the payload hashes one by one, then hashes the framed fields. */
  method HashPacket(sha: Hash, p: Packet) returns (r: Option<Digest>)
    ensures r == if Committable(p) then Some(CommitPacket(sha, p)) else None
  {
    var concat: Bytes := [];
    for i := 0 to |p.payloads|
      invariant forall k :: 0 <= k < i ==> CommittablePayload(p.payloads[k])
      invariant concat == Concat(PayloadDigests(sha, p.payloads[..i]))
    {
      var h := HashPayload(sha, p.payloads[i]);
      if h == None {
        return None;
      }
      concat := concat + h.value;
      AppendPayloadDigest(sha, p.payloads, i);
    }
    if |p.destClient| > STRING_BUFFER {
      return None;
    }
    assert p.payloads[..|p.payloads|] == p.payloads;
    var preimage := [VERSION_PREFIX];
    preimage := preimage + sha(p.destClient);
    preimage := preimage + sha(U64Bytes(p.timeout));
    preimage := preimage + sha(concat);
    ThreeDigests(sha, PacketFields(sha, p));
    assert preimage == PacketPreimage(sha, p);
    r := Some(sha(preimage));
  }

  lemma AppendPayloadDigest(sha: Hash, ps: seq<Payload>, i: nat)
    requires i < |ps|
    ensures Concat(PayloadDigests(sha, ps[..i + 1])) == Concat(PayloadDigests(sha, ps[..i])) + CommitPayload(sha, ps[i])
  {
    var before, after := PayloadDigests(sha, ps[..i]), PayloadDigests(sha, ps[..i + 1]);
    assert after[..i] == before && after[i] == CommitPayload(sha, ps[i]);
  }

  lemma FiveDigests(sha: Hash, p: Payload)
    ensures Concat(Digests(sha, PayloadFields(p)))
         == sha(p.sourcePort) + sha(p.destPort) + sha(p.version) + sha(p.encoding) + sha(p.value)
  {
    var d: seq<Bytes> := Digests(sha, PayloadFields(p));
    assert d[..4][..3] == d[..3] && d[..3][..2] == d[..2] && d[..2][..1] == d[..1] && d[..1][..0] == [];
    assert Concat(d[..1]) == d[0];
    assert Concat(d[..2]) == d[0] + d[1];
    assert Concat(d[..3]) == d[0] + d[1] + d[2];
    assert Concat(d[..4]) == d[0] + d[1] + d[2] + d[3];
  }

  lemma ThreeDigests(sha: Hash, fs: seq<Bytes>)
    requires |fs| == 3
    ensures Concat(Digests(sha, fs)) == sha(fs[0]) + sha(fs[1]) + sha(fs[2])
  {
    var d: seq<Bytes> := Digests(sha, fs);
    assert d[..2][..1] == d[..1] && d[..1][..0] == [];
    assert Concat(d[..1]) == d[0];
    assert Concat(d[..2]) == d[0] + d[1];
  }

  method HashAck(sha: Hash, acks: seq<Bytes>) returns (r: Digest)
    ensures r == CommitAck(sha, acks)
  {
    var concat: Bytes := [];
    for i := 0 to |acks|
      invariant concat == Concat(Digests(sha, acks[..i]))
    {
      concat := concat + sha(acks[i]);
      ghost var before, after := Digests(sha, acks[..i]), Digests(sha, acks[..i + 1]);
      assert after[..i] == before && after[i] == sha(acks[i]);
    }
    assert acks[..|acks|] == acks;
    r := sha([VERSION_PREFIX] + concat);
  }
}
