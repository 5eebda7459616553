/** Bytes, machine integers, digests and the failure types shared by every component. */
module Prelude {

  type Byte = x: int | 0 <= x < 256
  type Bytes = seq<Byte>

  type U32 = x: int | 0 <= x < 0x1_0000_0000
  type U64 = x: int | 0 <= x < 0x1_0000_0000_0000_0000

  const U32_MAX: U32 := 0xFFFF_FFFF
  const U64_MAX: U64 := 0xFFFF_FFFF_FFFF_FFFF

  datatype Option<+T> = None | Some(value: T)

  datatype Result<+T, +E> = Ok(value: T) | Err(error: E)

  /** A call did what its specification says, or panicked, as the specification says, and left no trace. */
  ghost predicate Follows<S, R, E>(spec: Option<S>, r: Result<R, E>, before: S, after: S) {
    if spec.Some? then r.Ok? && after == spec.value else r.Err? && after == before
  }

  /** The same for a specification that names the error. */
  ghost predicate Obeys<S, R, E>(spec: Result<S, E>, r: Result<R, E>, before: S, after: S) {
    && Follows(if spec.Ok? then Some(spec.value) else None, r, before, after)
    && (spec.Err? ==> r.Err? && r.error == spec.error)
  }

  // ---------------------------------------------------------------- digests

  const HASH_SIZE := 32

  type Digest = d: Bytes | |d| == 32 witness seq(32, _ => 0)

  /** The all-zero digest: the value of an empty Merkle slot. */
  const EMPTY: Digest :=
    [0, 0, 0, 0, 0, 0, 0, 0, 0, 0, 0, 0, 0, 0, 0, 0,
     0, 0, 0, 0, 0, 0, 0, 0, 0, 0, 0, 0, 0, 0, 0, 0]

  /** SHA-256 is a parameter: every statement holds for every hash function. */
  type Hash = Bytes -> Digest

  /** What an adversary must exhibit to defeat a hash-based check. */
  datatype Evidence =
    | Collision(left: Bytes, right: Bytes)
    | ZeroPreimage(preimage: Bytes)

  predicate Breaks(sha: Hash, e: Evidence) {
    match e
    case Collision(a, b) => a != b && sha(a) == sha(b)
    case ZeroPreimage(a) => sha(a) == EMPTY
  }

  // ---------------------------------------------------------------- big-endian integers

  function Pow256(k: nat): (r: nat)
    ensures r >= 1
  {
    if k == 0 then 1 else 256 * Pow256(k - 1)
  }

  /** The `k` low-order bytes of `n`, most significant first. */
  function ToBigEndian(n: nat, k: nat): (r: Bytes)
    ensures |r| == k
  {
    if k == 0 then [] else ToBigEndian(n / 256, k - 1) + [n % 256]
  }

  function FromBigEndian(b: Bytes): (n: nat)
    ensures n < Pow256(|b|)
  {
    if |b| == 0 then 0 else FromBigEndian(b[..|b| - 1]) * 256 + b[|b| - 1]
  }

  lemma {:induction false} BigEndianRoundTrip(n: nat, k: nat)
    requires n < Pow256(k)
    ensures FromBigEndian(ToBigEndian(n, k)) == n
  {
    if k > 0 {
      LowByte(n, Pow256(k - 1));
      BigEndianRoundTrip(n / 256, k - 1);
      FromBigEndianAppend(ToBigEndian(n / 256, k - 1), n % 256);
    }
  }

  lemma LowByte(n: nat, m: nat)
    requires n < 256 * m
    ensures n / 256 < m && n == n / 256 * 256 + n % 256
  {
  }

  lemma FromBigEndianAppend(b: Bytes, x: Byte)
    ensures FromBigEndian(b + [x]) == FromBigEndian(b) * 256 + x
  {
    assert (b + [x])[..|b|] == b;
  }

  lemma {:induction false} BigEndianOnto(b: Bytes)
    ensures ToBigEndian(FromBigEndian(b), |b|) == b
  {
    if |b| > 0 {
      var k := |b| - 1;
      BigEndianOnto(b[..k]);
      ByteSplit(FromBigEndian(b[..k]), b[k]);
      assert b == b[..k] + [b[k]];
    }
  }

  lemma ByteSplit(m: nat, x: Byte)
    ensures (m * 256 + x) / 256 == m && (m * 256 + x) % 256 == x
  {
  }

  lemma Pow256Of8()
    ensures Pow256(8) == 0x1_0000_0000_0000_0000
  {
    assert Pow256(4) == 0x1_0000_0000;
    assert Pow256(8) == 256 * Pow256(7);
    assert Pow256(7) == 256 * Pow256(6);
    assert Pow256(6) == 256 * Pow256(5);
    assert Pow256(5) == 256 * Pow256(4);
  }

  /** `u64::to_be_bytes`. */
  function U64Bytes(n: U64): (r: Bytes)
    ensures |r| == 8
    ensures FromBigEndian(r) == n
  {
    Pow256Of8();
    BigEndianRoundTrip(n, 8);
    ToBigEndian(n, 8)
  }

  /** `u64::from_be_bytes`. */
  function U64FromBytes(b: Bytes): (n: U64)
    requires |b| == 8
    ensures U64Bytes(n) == b
  {
    Pow256Of8();
    BigEndianOnto(b);
    FromBigEndian(b)
  }

  // ---------------------------------------------------------------- sequences

  function Concat(chunks: seq<Bytes>): Bytes {
    if |chunks| == 0 then [] else Concat(chunks[..|chunks| - 1]) + chunks[|chunks| - 1]
  }

  /** Concatenations of equally many 32-byte digests determine the digests. */
  lemma {:induction false} ConcatOfDigests(a: seq<Digest>)
    ensures |Concat(a)| == 32 * |a|
  {
    if |a| > 0 {
      ConcatOfDigests(a[..|a| - 1]);
    }
  }

  lemma {:induction false} ConcatOfDigestsInjective(a: seq<Digest>, b: seq<Digest>)
    requires Concat(a) == Concat(b)
    ensures a == b
  {
    ConcatOfDigests(a);
    ConcatOfDigests(b);
    if |a| > 0 {
      var k := |a| - 1;
      ConcatOfDigests(a[..k]);
      ConcatOfDigests(b[..k]);
      var ca, cb := Concat(a[..k]), Concat(b[..k]);
      assert ca == (ca + a[k])[..32 * k] == (cb + b[k])[..32 * k] == cb;
      assert a[k] == (ca + a[k])[32 * k..] == (cb + b[k])[32 * k..] == b[k];
      ConcatOfDigestsInjective(a[..k], b[..k]);
      assert a == a[..k] + [a[k]];
      assert b == b[..k] + [b[k]];
    }
  }
}
