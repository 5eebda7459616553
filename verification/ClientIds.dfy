/** Identifier validation and the minting of client ids. */
module ClientIds {
  import opened Prelude

  const DASH: Byte := 45
  const ZERO: Byte := 48

  // ---------------------------------------------------------------- validation

  const CHANNEL_PREFIX: Bytes := [99, 104, 97, 110, 110, 101, 108, 45]
  const CLIENT_PREFIX: Bytes := [99, 108, 105, 101, 110, 116, 45]

  predicate AllowedChar(c: Byte) {
    || 97 <= c <= 122 || 65 <= c <= 90 || 48 <= c <= 57
    || c in {46, 95, 43, 45, 35, 91, 93, 60, 62}
  }

  datatype IdentifierError = BadLength | BadPrefix | BadChar

  function Validate(s: Bytes): Option<IdentifierError> {
    if !(4 <= |s| <= 128) then Some(BadLength)
    else if CHANNEL_PREFIX <= s || CLIENT_PREFIX <= s then Some(BadPrefix)
    else if exists i :: 0 <= i < |s| && !AllowedChar(s[i]) then Some(BadChar)
    else None
  }

  // ---------------------------------------------------------------- decimal digits

  function Digits(n: nat): (r: Bytes)
    ensures |r| >= 1
    ensures forall i :: 0 <= i < |r| ==> ZERO <= r[i] < ZERO + 10
  {
    if n < 10 then [ZERO + n] else Digits(n / 10) + [ZERO + n % 10]
  }

  predicate AllDigits(s: Bytes) {
    forall i :: 0 <= i < |s| ==> ZERO <= s[i] < ZERO + 10
  }

  function Value(s: Bytes): nat
    requires AllDigits(s)
  {
    if |s| == 0 then 0 else Value(s[..|s| - 1]) * 10 + (s[|s| - 1] - ZERO)
  }

  lemma {:induction false} ValueOfDigits(n: nat)
    ensures Value(Digits(n)) == n
  {
    var d := Digits(n);
    if n < 10 {
      assert d[..0] == [];
    } else {
      assert d[..|d| - 1] == Digits(n / 10);
      ValueOfDigits(n / 10);
    }
  }

  lemma U32DigitsAtMostTen(n: U32)
    ensures |Digits(n)| <= 10
  {
    DigitCount(n, 10);
  }

  function Pow10(k: nat): nat {
    if k == 0 then 1 else 10 * Pow10(k - 1)
  }

  lemma {:induction false} DigitCount(n: nat, k: nat)
    requires k >= 1 && n < Pow10(k)
    ensures |Digits(n)| <= k
  {
    if n >= 10 {
      DigitCount(n / 10, k - 1);
    }
  }

  // ---------------------------------------------------------------- minting

  const ID_BUFFER := 64

  function ClientId(clientType: Bytes, n: U32): Bytes {
    clientType + [DASH] + Digits(n)
  }

  /** The id, or `None` when it overruns the fixed buffer and the contract traps. */
  function Minted(clientType: Bytes, n: U32): (r: Option<Bytes>)
    ensures |clientType| <= 53 ==> r.Some?
  {
    U32DigitsAtMostTen(n);
    if |ClientId(clientType, n)| <= ID_BUFFER then Some(ClientId(clientType, n)) else None
  }

  /** The API's inverse: everything before the last dash. */
  function ClientTypeOf(id: Bytes): Bytes {
    if |id| == 0 then id
    else if id[|id| - 1] == DASH then id[..|id| - 1]
    else if DASH in id then ClientTypeOf(id[..|id| - 1])
    else id
  }

  lemma {:induction false} DashBeforeDigits(front: Bytes, tail: Bytes)
    requires AllDigits(tail)
    ensures ClientTypeOf(front + [DASH] + tail) == front
  {
    var id := front + [DASH] + tail;
    assert id[|front|] == DASH;
    if |tail| == 0 {
      assert id[..|id| - 1] == front;
    } else {
      assert id[|id| - 1] == tail[|tail| - 1];
      assert id[..|id| - 1] == front + [DASH] + tail[..|tail| - 1];
      DashBeforeDigits(front, tail[..|tail| - 1]);
    }
  }

  lemma TypeRecovered(clientType: Bytes, n: U32)
    ensures ClientTypeOf(ClientId(clientType, n)) == clientType
  {
    DashBeforeDigits(clientType, Digits(n));
  }

  /** Distinct (type, counter) pairs get distinct ids, whatever dashes and digits the types contain. */
  lemma ClientIdInjective(t: Bytes, n: U32, t': Bytes, n': U32)
    requires ClientId(t, n) == ClientId(t', n')
    ensures t == t' && n == n'
  {
    TypeRecovered(t, n);
    TypeRecovered(t', n');
    var id := ClientId(t, n);
    assert id[|t| + 1..] == Digits(n) == Digits(n');
    ValueOfDigits(n);
    ValueOfDigits(n');
  }

  // ---------------------------------------------------------------- the buffers

  lemma LowDigit(m: nat)
    ensures Digits(m)[|Digits(m)| - 1] == ZERO + m % 10
    ensures m >= 10 ==> Digits(m / 10) == Digits(m)[..|Digits(m)| - 1]
    ensures m < 10 ==> |Digits(m)| == 1 && m / 10 == 0
  {
  }

  /** The ten-byte scratch array, filled least significant digit first. */
  method DigitsReversed(n: U32) returns (tmp: array<Byte>, len: nat)
    requires n > 0
    ensures fresh(tmp) && len == |Digits(n)| <= tmp.Length
    ensures forall j :: 0 <= j < len ==> tmp[j] == Digits(n)[len - 1 - j]
  {
    U32DigitsAtMostTen(n);
    ghost var digits := Digits(n);
    tmp := new Byte[10](_ => 0);
    var m := n;
    len := 0;
    while m > 0
      invariant 0 <= len <= |digits|
      invariant if m > 0 then Digits(m) == digits[..|digits| - len] else len == |digits|
      invariant forall j :: 0 <= j < len ==> tmp[j] == digits[|digits| - 1 - j]
    {
      LowDigit(m);
      assert digits[|digits| - 1 - len] == Digits(m)[|Digits(m)| - 1];
      tmp[len] := ZERO + m % 10;
      m := m / 10;
      len := len + 1;
    }
  }

  /** Writes the decimal digits at `start`; `None` is the trap of a full buffer. */
  method WriteU32(buf: array<Byte>, start: nat, n: U32) returns (len: Option<nat>)
    requires start <= buf.Length
    modifies buf
    ensures buf[..start] == old(buf[..start])
    ensures len == if start + |Digits(n)| <= buf.Length then Some(|Digits(n)|) else None
    ensures len.Some? ==> buf[start..start + len.value] == Digits(n)
  {
    if n == 0 {
      if start == buf.Length {
        return None;
      }
      buf[start] := ZERO;
      return Some(1);
    }
    var tmp, i := DigitsReversed(n);
    if start + i > buf.Length {
      return None;
    }
    ghost var digits := Digits(n);
    for j := 0 to i
      invariant buf[..start] == old(buf[..start])
      invariant buf[start..start + j] == digits[..j]
      invariant forall k :: 0 <= k < i ==> tmp[k] == digits[i - 1 - k]
    {
      buf[start + j] := tmp[i - 1 - j];
    }
    len := Some(i);
  }

  method MintClientId(clientType: Bytes, n: U32) returns (r: Option<Bytes>)
    ensures r == Minted(clientType, n)
  {
    var prefixLen := |clientType|;
    if prefixLen + 1 > ID_BUFFER {
      return None;
    }
    var buf := new Byte[ID_BUFFER](_ => 0);
    for i := 0 to prefixLen
      invariant buf[..i] == clientType[..i]
    {
      buf[i] := clientType[i];
    }
    assert clientType[..prefixLen] == clientType;
    buf[prefixLen] := DASH;
    assert buf[..prefixLen + 1] == clientType + [DASH];
    var len := WriteU32(buf, prefixLen + 1, n);
    if len == None {
      return None;
    }
    var total := prefixLen + 1 + len.value;
    assert buf[..total] == buf[..prefixLen + 1] + buf[prefixLen + 1..total];
    r := Some(buf[..total]);
  }
}
