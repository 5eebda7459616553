/** The ICS-20 transfer application: balances, escrow, refunds and the daily cap. */
module Transfer {
  import opened Prelude
  import opened Commitments
  import opened Router

  type I128 = x: int | -0x8000_0000_0000_0000_0000_0000_0000_0000 <= x < 0x8000_0000_0000_0000_0000_0000_0000_0000

  predicate InI128(x: int) {
    -0x8000_0000_0000_0000_0000_0000_0000_0000 <= x < 0x8000_0000_0000_0000_0000_0000_0000_0000
  }

  const SECS_PER_DAY := 86_400

  /** "transfer" */
  const PORT: Bytes := [116, 114, 97, 110, 115, 102, 101, 114]
  /** "ics20-1" */
  const VERSION: Bytes := [105, 99, 115, 50, 48, 45, 49]
  /** "application/json" */
  const ENCODING: Bytes := [97, 112, 112, 108, 105, 99, 97, 116, 105, 111, 110, 47, 106, 115, 111, 110]
  /** The opening of a JSON success acknowledgement. */
  const RESULT_PREFIX: Bytes := [123, 34, 114, 101, 115, 117, 108, 116, 34]
  const SUCCESS_ACK: Bytes := [0x01]

  datatype AppError =
    | InvalidPacketData | InsufficientBalance | AmountMustBePositive | UnknownSourcePort | UnknownDestPort
    | DailyLimitExceeded | RouterRefused(error: Error) | Aborted

  datatype PacketData = PacketData(denom: Bytes, amount: I128, sender: Bytes, receiver: Bytes, memo: Bytes)

  /** The wire formats: what a send writes, what the callbacks read, and the XDR of addresses. */
  datatype Codec = Codec(
    encode: PacketData -> Bytes,
    decode: Bytes -> Option<PacketData>,
    xdr: Address -> Bytes,
    fromXdr: Bytes -> Option<Address>)

  // ---------------------------------------------------------------- addresses as hex strings

  function NibbleToHex(n: int): Byte
    requires 0 <= n < 16
  {
    if n < 10 then 48 + n else 97 + (n - 10)
  }

  function HexToNibble(c: Byte): (r: Option<int>)
    ensures r.Some? ==> 0 <= r.value < 16
  {
    if 48 <= c <= 57 then Some(c - 48)
    else if 97 <= c <= 102 then Some(c - 97 + 10)
    else if 65 <= c <= 70 then Some(c - 65 + 10)
    else None
  }

  function Hex(b: Bytes): (r: Bytes)
    ensures |r| == 2 * |b|
  {
    if |b| == 0 then []
    else Hex(b[..|b| - 1]) + [NibbleToHex(b[|b| - 1] / 16), NibbleToHex(b[|b| - 1] % 16)]
  }

  function Unhex(s: Bytes): Option<Bytes>
    requires |s| % 2 == 0
  {
    if |s| == 0 then Some([])
    else match (Unhex(s[..|s| - 2]), HexToNibble(s[|s| - 2]), HexToNibble(s[|s| - 1]))
      case (Some(front), Some(hi), Some(lo)) => Some(front + [hi * 16 + lo])
      case _ => None
  }

  lemma {:induction false} HexRoundTrip(b: Bytes)
    ensures Unhex(Hex(b)) == Some(b)
  {
    if |b| > 0 {
      var front, last := b[..|b| - 1], b[|b| - 1];
      HexRoundTrip(front);
      var s := Hex(b);
      assert s[..|s| - 2] == Hex(front);
      assert b == front + [last];
    }
  }

  /** `None` traps: the XDR overruns its 256-byte buffer. */
  function AddressToString(codec: Codec, a: Address): Option<Bytes> {
    if |codec.xdr(a)| > 256 then None else Some(Hex(codec.xdr(a)))
  }

  function StringToAddress(codec: Codec, s: Bytes): Option<Address> {
    if |s| % 2 != 0 || |s| > 512 then None
    else match Unhex(s)
      case None => None
      case Some(b) => codec.fromXdr(b)
  }

  /** The hypotheses under which a refund can find its way back: reading inverts writing, for
      the positive amounts that are ever sent. */
  ghost predicate Inverts(codec: Codec) {
    && (forall d: PacketData :: d.amount > 0 ==> codec.decode(codec.encode(d)) == Some(d))
    && (forall a: Address :: codec.fromXdr(codec.xdr(a)) == Some(a))
  }

  lemma AddressRoundTrip(codec: Codec, a: Address)
    requires Inverts(codec) && AddressToString(codec, a).Some?
    ensures StringToAddress(codec, AddressToString(codec, a).value) == Some(a)
  {
    HexRoundTrip(codec.xdr(a));
  }

  // ---------------------------------------------------------------- balances

  type Account = (Address, Bytes)

  datatype App = App(
    balances: map<Account, I128>,
    caps: map<Bytes, I128>,
    usage: map<(Bytes, int), I128>)

  function Balance(t: App, who: Address, denom: Bytes): I128 {
    if (who, denom) in t.balances then t.balances[(who, denom)] else 0
  }

  function Debit(t: App, who: Address, denom: Bytes, amount: I128): Result<App, AppError> {
    var cur := Balance(t, who, denom);
    if cur < amount then Err(InsufficientBalance)
    else if !InI128(cur - amount) then Err(Aborted)
    else Ok(t.(balances := t.balances[(who, denom) := cur - amount]))
  }

  function Credit(t: App, who: Address, denom: Bytes, amount: I128): Result<App, AppError> {
    var cur := Balance(t, who, denom);
    if !InI128(cur + amount) then Err(Aborted)
    else Ok(t.(balances := t.balances[(who, denom) := cur + amount]))
  }

  function Move(t: App, payer: Address, payee: Address, denom: Bytes, amount: I128): Result<App, AppError> {
    match Debit(t, payer, denom, amount)
    case Err(e) => Err(e)
    case Ok(t') => Credit(t', payee, denom, amount)
  }

  // ---------------------------------------------------------------- entry points

  function Mint(t: App, payee: Address, denom: Bytes, amount: I128): Result<App, AppError> {
    if amount <= 0 then Err(AmountMustBePositive) else Credit(t, payee, denom, amount)
  }

  function SetRateLimit(t: App, admin: Address, auth: set<Address>, denom: Bytes, cap: I128): Result<App, AppError> {
    if admin !in auth then Err(Aborted)
    else if cap < 0 then Err(AmountMustBePositive)
    else Ok(t.(caps := t.caps[denom := cap]))
  }

  function Day(time: U64): int {
    time / SECS_PER_DAY
  }

  function Usage(t: App, denom: Bytes, day: int): I128 {
    if (denom, day) in t.usage then t.usage[(denom, day)] else 0
  }

  function EnforceLimit(t: App, time: U64, denom: Bytes, amount: I128): Result<App, AppError> {
    if denom !in t.caps then Ok(t)
    else
      var used := Usage(t, denom, Day(time));
      if !InI128(used + amount) then Err(Aborted)
      else if used + amount > t.caps[denom] then Err(DailyLimitExceeded)
      else Ok(t.(usage := t.usage[(denom, Day(time)) := used + amount]))
  }

  /** What `initiate_transfer` asks for. */
  datatype Order = Order(sender: Address, client: Bytes, denom: Bytes, amount: I128, receiver: Bytes, timeout: U64, memo: Bytes)

  /** The application's part of `initiate_transfer`: escrow the amount. */
  function Escrowed(t: App, self: Address, env: Env, o: Order): Result<App, AppError> {
    if o.sender !in env.auth then Err(Aborted)
    else if o.amount <= 0 then Err(AmountMustBePositive)
    else match EnforceLimit(t, env.time, o.denom, o.amount)
      case Err(e) => Err(e)
      case Ok(t') => Move(t', o.sender, self, o.denom, o.amount)
  }

  /** `None` traps: a string overruns the 512-byte buffer of the encoder. */
  function PayloadFor(codec: Codec, o: Order): Option<Payload> {
    match AddressToString(codec, o.sender)
    case None => None
    case Some(sender) =>
      if |o.denom| > 512 || |o.receiver| > 512 || |o.memo| > 512 then None
      else Some(Payload(PORT, PORT, VERSION, ENCODING, codec.encode(PacketData(o.denom, o.amount, sender, o.receiver, o.memo))))
  }

  predicate IsSuccess(ack: Bytes) {
    ack == SUCCESS_ACK || RESULT_PREFIX <= ack
  }

  function OnRecvPacket(codec: Codec, t: App, payload: Payload): Result<App, AppError> {
    if payload.destPort != PORT then Err(UnknownDestPort)
    else match codec.decode(payload.value)
      case None => Err(InvalidPacketData)
      case Some(d) =>
        match StringToAddress(codec, d.receiver)
        case None => Err(InvalidPacketData)
        case Some(receiver) => Credit(t, receiver, d.denom, d.amount)
  }

  function Refund(codec: Codec, t: App, self: Address, d: PacketData): Result<App, AppError> {
    match StringToAddress(codec, d.sender)
    case None => Err(InvalidPacketData)
    case Some(sender) => Move(t, self, sender, d.denom, d.amount)
  }

  function OnTimeoutPacket(codec: Codec, t: App, self: Address, payload: Payload): Result<App, AppError> {
    if payload.sourcePort != PORT then Err(UnknownSourcePort)
    else match codec.decode(payload.value)
      case None => Err(InvalidPacketData)
      case Some(d) => Refund(codec, t, self, d)
  }

  function OnAckPacket(codec: Codec, t: App, self: Address, payload: Payload, ack: Bytes): Result<App, AppError> {
    if payload.sourcePort != PORT then Err(UnknownSourcePort)
    else if IsSuccess(ack) then Ok(t)
    else OnTimeoutPacket(codec, t, self, payload)
  }

  // ---------------------------------------------------------------- total supply

  ghost function Pick(balances: map<Account, I128>): (k: Account)
    requires |balances| > 0
    ensures k in balances
  {
    var k :| k in balances;
    k
  }

  function Share(balances: map<Account, I128>, denom: Bytes, k: Account): int
    requires k in balances
  {
    if k.1 == denom then balances[k] else 0
  }

  ghost function SupplyOf(balances: map<Account, I128>, denom: Bytes): int
    decreases |balances|
  {
    if |balances| == 0 then 0
    else
      var k := Pick(balances);
      Share(balances, denom, k) + SupplyOf(balances - {k}, denom)
  }

  ghost function Supply(t: App, denom: Bytes): int {
    SupplyOf(t.balances, denom)
  }

  lemma {:induction false} SupplyWithout(balances: map<Account, I128>, denom: Bytes, k: Account)
    requires k in balances
    ensures SupplyOf(balances, denom) == Share(balances, denom, k) + SupplyOf(balances - {k}, denom)
    decreases |balances|
  {
    var j := Pick(balances);
    if j != k {
      var lessJ, lessK := balances - {j}, balances - {k};
      SupplyWithout(lessJ, denom, k);
      SupplyWithout(lessK, denom, j);
      assert lessJ - {k} == lessK - {j};
    }
  }

  /** The supply is one account's share and the rest. */
  lemma SupplySplits(t: App, who: Address, denom: Bytes, d: Bytes)
    ensures Supply(t, d) == SupplyOf(t.balances - {(who, denom)}, d) + (if d == denom then Balance(t, who, denom) else 0)
  {
    var k := (who, denom);
    if k in t.balances {
      SupplyWithout(t.balances, d, k);
    } else {
      assert t.balances - {k} == t.balances;
    }
  }

  lemma SupplyAfterWrite(t: App, who: Address, denom: Bytes, amount: I128, d: Bytes)
    ensures var t' := t.(balances := t.balances[(who, denom) := amount]);
            Supply(t', d) == Supply(t, d) + (if d == denom then amount - Balance(t, who, denom) else 0)
  {
    var t' := t.(balances := t.balances[(who, denom) := amount]);
    SupplySplits(t, who, denom, d);
    SupplySplits(t', who, denom, d);
    assert t'.balances - {(who, denom)} == t.balances - {(who, denom)};
  }

  /** Moving money between accounts neither creates nor destroys it. */
  lemma MovePreservesSupply(t: App, payer: Address, payee: Address, denom: Bytes, amount: I128, d: Bytes)
    requires Move(t, payer, payee, denom, amount).Ok?
    ensures Supply(Move(t, payer, payee, denom, amount).value, d) == Supply(t, d)
  {
    var t1 := Debit(t, payer, denom, amount).value;
    SupplyAfterWrite(t, payer, denom, Balance(t, payer, denom) - amount, d);
    SupplyAfterWrite(t1, payee, denom, Balance(t1, payee, denom) + amount, d);
  }

  lemma CreditAddsSupply(t: App, payee: Address, denom: Bytes, amount: I128, d: Bytes)
    requires Credit(t, payee, denom, amount).Ok?
    ensures Supply(Credit(t, payee, denom, amount).value, d) == Supply(t, d) + (if d == denom then amount else 0)
  {
    SupplyAfterWrite(t, payee, denom, Balance(t, payee, denom) + amount, d);
  }

  /** For any two accounts and any amount: a move lacks balance exactly when the payer has less than
      the amount, otherwise it fails exactly on overflow, and it changes the two balances as it says,
      none when they are one account. */
  lemma MoveExactly(t: App, payer: Address, payee: Address, denom: Bytes, amount: I128)
    ensures var r := Move(t, payer, payee, denom, amount);
            var left := Balance(t, payer, denom) - amount;
            var was := if payee == payer then left else Balance(t, payee, denom);
            && (r == Err(InsufficientBalance) <==> left < 0)
            && (r.Ok? <==> left >= 0 && InI128(left) && InI128(was + amount))
            && (r.Ok? ==> forall who, d ::
                  Balance(r.value, who, d)
                  == if d != denom then Balance(t, who, d)
                     else if who == payee then was + amount
                     else if who == payer then left else Balance(t, who, d))
  {
  }
}
