/** Byte layouts: what exactly is hashed, stored and printed, position by position. */
module Layouts {
  import opened Prelude
  import opened Paths
  import opened Commitments
  import opened MerkleTree
  import opened ProofWire
  import opened ClientIds
  import R = Router
  import T = Transfer

  // ---------------------------------------------------------------- integers and keys

  /** Byte `j` of a number, the least significant being byte 0. */
  function ByteOf(n: nat, j: nat): Byte {
    if j == 0 then n % 256 else ByteOf(n / 256, j - 1)
  }

  /** The number in as many bytes as there are, most significant first. */
  ghost predicate BigEndian(b: Bytes, n: nat) {
    forall i :: 0 <= i < |b| ==> b[i] == ByteOf(n, |b| - 1 - i)
  }

  lemma {:induction false} BigEndianDigits(n: nat, k: nat)
    ensures BigEndian(ToBigEndian(n, k), n)
  {
    if k > 0 {
      BigEndianDigits(n / 256, k - 1);
    }
  }

  /** A provable key: the client id, one byte for the kind, the sequence in eight bytes. */
  lemma KeyLayout(p: Path)
    ensures var key, n := Key(p), |p.client|;
            && |key| == n + 9
            && key[..n] == p.client
            && key[n] == (if p.kind == PacketCommitment then 1 else if p.kind == PacketReceipt then 2 else 3)
            && BigEndian(key[n + 1..], p.sequence)
  {
    BigEndianDigits(p.sequence, 8);
    assert Key(p)[|p.client| + 1..] == U64Bytes(p.sequence);
  }

  // ---------------------------------------------------------------- commitments

  lemma {:induction false} DigestAt(ds: seq<Digest>, i: nat, a: nat)
    requires i < |ds| && a == 32 * i
    ensures |Concat(ds)| == 32 * |ds| && Concat(ds)[a..a + 32] == ds[i]
  {
    var k := |ds| - 1;
    ConcatOfDigests(ds);
    ConcatOfDigests(ds[..k]);
    if i < k {
      DigestAt(ds[..k], i, a);
      assert Concat(ds)[a..a + 32] == Concat(ds[..k])[a..a + 32];
    }
  }

  /** A payload commitment hashes 160 bytes: the digests of source port, destination port, version,
      encoding and value. */
  lemma PayloadLayout(sha: Hash, p: Payload) returns (m: Bytes)
    ensures CommitPayload(sha, p) == sha(m) && |m| == 160
    ensures m[0..32] == sha(p.sourcePort) && m[32..64] == sha(p.destPort) && m[64..96] == sha(p.version)
    ensures m[96..128] == sha(p.encoding) && m[128..160] == sha(p.value)
  {
    var ds := Digests(sha, PayloadFields(p));
    m := Concat(ds);
    DigestAt(ds, 0, 0);
    DigestAt(ds, 1, 32);
    DigestAt(ds, 2, 64);
    DigestAt(ds, 3, 96);
    DigestAt(ds, 4, 128);
  }

  /** A packet commitment hashes 97 bytes: version byte 2, then the digests of the destination client, of
      the timeout in eight big-endian bytes, and of the payload commitments in order. */
  lemma PacketLayout(sha: Hash, p: Packet) returns (m: Bytes, b: Bytes, c: Bytes)
    ensures CommitPacket(sha, p) == sha(m) && |m| == 97
    ensures m[0] == 2 && m[1..33] == sha(p.destClient) && m[33..65] == sha(b) && m[65..97] == sha(c)
    ensures |b| == 8 && BigEndian(b, p.timeout)
    ensures |c| == 32 * |p.payloads|
    ensures forall i :: 0 <= i < |p.payloads| ==> c[32 * i..32 * i + 32] == CommitPayload(sha, p.payloads[i])
  {
    var ps := PayloadDigests(sha, p.payloads);
    b, c := U64Bytes(p.timeout), Concat(ps);
    m := FramedDigests(sha, PacketFields(sha, p));
    BigEndianDigits(p.timeout, 8);
    ConcatOfDigests(ps);
    forall i | 0 <= i < |p.payloads| ensures c[32 * i..32 * i + 32] == CommitPayload(sha, p.payloads[i]) {
      DigestAt(ps, i, 32 * i);
    }
  }

  lemma FramedDigests(sha: Hash, fs: seq<Bytes>) returns (m: Bytes)
    requires |fs| == 3
    ensures m == [VERSION_PREFIX] + Concat(Digests(sha, fs)) && |m| == 97 && m[0] == 2
    ensures m[1..33] == sha(fs[0]) && m[33..65] == sha(fs[1]) && m[65..97] == sha(fs[2])
  {
    var c := Concat(Digests(sha, fs));
    m := [VERSION_PREFIX] + c;
    DigestAt(Digests(sha, fs), 0, 0);
    DigestAt(Digests(sha, fs), 1, 32);
    DigestAt(Digests(sha, fs), 2, 64);
    assert m[1..33] == c[0..32] && m[33..65] == c[32..64] && m[65..97] == c[64..96];
  }

  /** An acknowledgement commitment hashes version byte 2 and the digests of the acknowledgements in order. */
  lemma AckLayout(sha: Hash, acks: seq<Bytes>) returns (m: Bytes)
    ensures CommitAck(sha, acks) == sha(m) && |m| == 1 + 32 * |acks| && m[0] == 2
    ensures forall i :: 0 <= i < |acks| ==> m[1 + 32 * i..33 + 32 * i] == sha(acks[i])
  {
    var ds := Digests(sha, acks);
    m := AckPreimage(sha, acks);
    ConcatOfDigests(ds);
    assert m[1..] == Concat(ds);
    forall i | 0 <= i < |acks| ensures m[1 + 32 * i..33 + 32 * i] == sha(acks[i]) {
      DigestAt(ds, i, 32 * i);
      assert m[1 + 32 * i..33 + 32 * i] == m[1..][32 * i..32 * i + 32];
    }
  }

  // ---------------------------------------------------------------- the tree

  /** Leaves are hashed behind byte 0, key before value; inner nodes behind byte 1, left before right. */
  lemma TreeHashLayout(sha: Hash, keyHash: Digest, valueHash: Digest) returns (leaf: Bytes, inner: Bytes)
    ensures LeafHash(sha, Leaf(keyHash, valueHash)) == sha(leaf) && |leaf| == 65
    ensures leaf[0] == 0 && leaf[1..33] == keyHash && leaf[33..65] == valueHash
    ensures keyHash != EMPTY || valueHash != EMPTY ==> InnerHash(sha, keyHash, valueHash) == sha(inner)
    ensures InnerHash(sha, EMPTY, EMPTY) == EMPTY
    ensures |inner| == 65 && inner[0] == 1 && inner[1..33] == keyHash && inner[33..65] == valueHash
  {
    leaf, inner := LeafPreimage(Leaf(keyHash, valueHash)), InnerPreimage(keyHash, valueHash);
  }

  /** The slot of a key is the number in the first eight bytes of its hash, most significant first. */
  lemma SlotLayout(sha: Hash, key: Bytes)
    ensures BigEndian(sha(key)[..8], Slot(sha, key))
  {
    assert U64Bytes(Slot(sha, key)) == sha(key)[..8];
    BigEndianDigits(Slot(sha, key), 8);
  }

  // ---------------------------------------------------------------- the proof format

  /** How any ICS-23 verifier evaluates an inner step: hash prefix, child and suffix. */
  function ApplyOp(sha: Hash, op: InnerOp, child: Digest): Digest {
    sha(op.prefix + child + op.suffix)
  }

  function ApplyOps(sha: Hash, ops: seq<InnerOp>, child: Digest): Digest
    decreases |ops|
  {
    if |ops| == 0 then child else ApplyOps(sha, ops[1..], ApplyOp(sha, ops[0], child))
  }

  /** No node on the branch is empty, so that the empty-pair shortcut is never taken. */
  ghost predicate NonEmptyBranch(sha: Hash, i: U64, node: Digest, siblings: seq<Digest>)
    decreases |siblings|
  {
    |siblings| > 0 ==> node != EMPTY && NonEmptyBranch(sha, Shr1(i), Parent(sha, i, node, siblings[0]), siblings[1..])
  }

  /** The printed steps mean what the branch means: evaluated by the ICS-23 rule they give the fold. */
  lemma {:induction false} StepsMeanBranch(sha: Hash, i: U64, node: Digest, siblings: seq<Digest>)
    requires NonEmptyBranch(sha, i, node, siblings)
    ensures ApplyOps(sha, PathOps(siblings, i), node) == Fold(sha, i, node, siblings)
    decreases |siblings|
  {
    if |siblings| > 0 {
      var ops := PathOps(siblings, i);
      assert ops[1..] == PathOps(siblings[1..], Shr1(i));
      var op := ops[0];
      if i % 2 == 0 {
        assert op.prefix + node + op.suffix == InnerPreimage(node, siblings[0]);
      } else {
        assert op.prefix + node + op.suffix == InnerPreimage(siblings[0], node);
      }
      StepsMeanBranch(sha, Shr1(i), Parent(sha, i, node, siblings[0]), siblings[1..]);
    }
  }

  /** The envelope around the steps: SHA-256 throughout, no hashing of key or value beforehand, no length prefix; a proof
      of absence is a proof of existence of the empty value in the place of the left neighbour. */
  lemma ProofLayout(key: Bytes, value: Bytes, siblings: seq<Digest>, index: U64)
    ensures var e := ExistenceWithIndex(key, value, siblings, index);
            && e.key == key && e.value == value && e.leaf == Some(LeafOp(1, 0, 0, 0, []))
            && |e.path| == |siblings| && forall i :: 0 <= i < |e.path| ==> e.path[i].hash == 1
    decreases |siblings|
  {
    if |siblings| > 0 {
      ProofLayout(key, value, siblings[1..], Shr1(index));
    }
  }

  /** The two forms of a step that the client reads: the sibling after the child, or before it. */
  predicate StepForm(op: InnerOp) {
    || (op.prefix == [1] && |op.suffix| == 32)
    || (|op.prefix| == 33 && op.prefix[0] == 1 && op.suffix == [])
  }

  lemma StepReads(op: InnerOp)
    ensures ExtractSibling(op).Some? <==> StepForm(op)
    ensures StepForm(op) ==> ExtractSibling(op).value == (if op.suffix == [] then op.prefix[1..] else op.suffix)
  {
  }

  lemma {:induction false} StepsRead(ops: seq<InnerOp>)
    ensures ExtractSiblings(ops).Some? <==> forall i :: 0 <= i < |ops| ==> StepForm(ops[i])
    ensures ExtractSiblings(ops).Some? ==> |ExtractSiblings(ops).value| == |ops|
    ensures ExtractSiblings(ops).Some? ==> forall i :: 0 <= i < |ops| ==> Some(ExtractSiblings(ops).value[i]) == ExtractSibling(ops[i])
  {
    if |ops| > 0 {
      StepReads(ops[0]);
      StepsRead(ops[1..]);
      assert forall i :: 1 <= i < |ops| ==> ops[i] == ops[1..][i - 1];
    }
  }

  /** A proof is read exactly when its first entry is of the kind asked for and all its steps have a readable form; a
      proof of absence needs, besides, a left neighbour with an empty value. */
  lemma ProofsRead(m: MerkleProof)
    ensures DecodeMembership(m).Some? <==>
      |m.proofs| > 0 && m.proofs[0].Exist? && forall i :: 0 <= i < |m.proofs[0].exist.path| ==> StepForm(m.proofs[0].exist.path[i])
    ensures DecodeNonMembership(m).Some? <==>
      && |m.proofs| > 0 && m.proofs[0].Nonexist? && m.proofs[0].nonexist.left.Some?
      && m.proofs[0].nonexist.left.value.value == []
      && forall i :: 0 <= i < |m.proofs[0].nonexist.left.value.path| ==> StepForm(m.proofs[0].nonexist.left.value.path[i])
  {
    if |m.proofs| > 0 && m.proofs[0].Exist? {
      StepsRead(m.proofs[0].exist.path);
    }
    if |m.proofs| > 0 && m.proofs[0].Nonexist? && m.proofs[0].nonexist.left.Some? {
      StepsRead(m.proofs[0].nonexist.left.value.path);
    }
  }

  // ---------------------------------------------------------------- texts

  predicate Spells(b: Bytes, text: string) {
    |b| == |text| && forall i :: 0 <= i < |b| ==> b[i] == text[i] as int
  }

  lemma Texts()
    ensures Spells(T.PORT, "transfer") && Spells(T.VERSION, "ics20-1") && Spells(T.ENCODING, "application/json")
    ensures Spells(T.RESULT_PREFIX, "{\"result\"")
    ensures Spells(CHANNEL_PREFIX, "channel-") && Spells(CLIENT_PREFIX, "client-")
    ensures T.SUCCESS_ACK == [1]
  {
  }

  lemma ErrorText()
    ensures Spells(R.ERROR_ACK_PREIMAGE, "UNIVERSAL_ERROR_ACKNOWLEDGEMENT")
  {
  }

  /** A day is 86400 seconds. */
  lemma DaySpan(time: U64, day: nat)
    ensures T.Day(time) == day <==> 86400 * day <= time < 86400 * (day + 1)
  {
  }

  /** Addresses are printed as lower-case hexadecimal digits, high nibble first. */
  lemma {:induction false} HexLayout(b: Bytes, i: nat)
    requires i < |b|
    ensures Spells([T.Hex(b)[2 * i]], ["0123456789abcdef"[b[i] / 16]])
    ensures Spells([T.Hex(b)[2 * i + 1]], ["0123456789abcdef"[b[i] % 16]])
  {
    if i < |b| - 1 {
      HexLayout(b[..|b| - 1], i);
    }
  }

  /** Hexadecimal digits of either case are read as their value, and nothing else is. */
  lemma HexDigitsRead(c: Byte, v: int)
    ensures T.HexToNibble(c) == Some(v) <==>
      || (0 <= v < 10 && c == '0' as int + v)
      || (10 <= v < 16 && (c == 'a' as int + (v - 10) || c == 'A' as int + (v - 10)))
  {
  }

  /** An acknowledgement reports success exactly when it is the single byte 1 or opens a JSON result. */
  lemma SuccessLayout(ack: Bytes)
    ensures T.IsSuccess(ack) <==> ack == [1] || (|ack| >= 9 && Spells(ack[..9], "{\"result\""))
  {
    Texts();
    if |ack| >= 9 && Spells(ack[..9], "{\"result\"") {
      assert ack[..9] == T.RESULT_PREFIX;
    }
    if T.RESULT_PREFIX <= ack {
      assert ack[..9] == T.RESULT_PREFIX;
    }
  }

  predicate IdentifierChar(c: Byte) {
    || 'a' as int <= c <= 'z' as int || 'A' as int <= c <= 'Z' as int || '0' as int <= c <= '9' as int
    || c == '.' as int || c == '_' as int || c == '+' as int || c == '-' as int || c == '#' as int
    || c == '[' as int || c == ']' as int || c == '<' as int || c == '>' as int
  }

  /** Port ids, client types and counterparty ids: 4 to 128 characters of the ICS-24 alphabet that do not start like
      a generated channel or client id. */
  lemma IdentifierRules(s: Bytes)
    ensures Validate(s) == None <==>
      && 4 <= |s| <= 128
      && (forall i :: 0 <= i < |s| ==> IdentifierChar(s[i]))
      && !(|s| >= 8 && Spells(s[..8], "channel-")) && !(|s| >= 7 && Spells(s[..7], "client-"))
  {
    Texts();
    assert forall c: Byte :: AllowedChar(c) <==> IdentifierChar(c);
    if |s| >= 8 {
      assert CHANNEL_PREFIX <= s <==> s[..8] == CHANNEL_PREFIX;
      assert s[..8] == CHANNEL_PREFIX <==> Spells(s[..8], "channel-");
    }
    if |s| >= 7 {
      assert CLIENT_PREFIX <= s <==> s[..7] == CLIENT_PREFIX;
      assert s[..7] == CLIENT_PREFIX <==> Spells(s[..7], "client-");
    }
  }
}
