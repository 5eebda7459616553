/** The transfer contract: storage entries rewritten step by step, with its router below it. */
module TransferContract {
  import opened Prelude
  import opened Commitments
  import opened Router
  import opened RouterContract
  import opened Transfer
  import opened Escrow

  class IbcTransfer {
    const codec: Codec
    const self: Address
    const admin: Address
    const router: IbcRouter
    const routerAddr: Address
    var balances: map<Account, I128>
    var caps: map<Bytes, I128>
    var usage: map<(Bytes, int), I128>

    ghost function View(): App
      reads this
    {
      App(balances, caps, usage)
    }

    ghost function Deployment(): Setup {
      Setup(router.sha, codec, self, admin)
    }

    constructor (codec: Codec, self: Address, admin: Address, router: IbcRouter, routerAddr: Address)
      ensures View() == App(map[], map[], map[])
      ensures this.router == router && this.routerAddr == routerAddr
      ensures this.codec == codec && this.self == self && this.admin == admin
    {
      this.codec, this.self, this.admin, this.router, this.routerAddr := codec, self, admin, router, routerAddr;
      balances, caps, usage := map[], map[], map[];
    }

    method BalanceOf(who: Address, denom: Bytes) returns (r: I128)
      ensures r == Balance(View(), who, denom)
    {
      r := if (who, denom) in balances then balances[(who, denom)] else 0;
    }

    // -------------------------------------------------------------- administration

    method SetRateLimit(auth: set<Address>, denom: Bytes, cap: I128) returns (r: Result<(), AppError>)
      modifies this`caps
      ensures Obeys(Transfer.SetRateLimit(old(View()), admin, auth, denom, cap), r, old(View()), View())
    {
      if admin !in auth {
        return Err(Aborted);
      }
      if cap < 0 {
        return Err(AmountMustBePositive);
      }
      caps := caps[denom := cap];
      r := Ok(());
    }

    method Mint(payee: Address, denom: Bytes, amount: I128) returns (r: Result<(), AppError>)
      modifies this`balances
      ensures Obeys(Transfer.Mint(old(View()), payee, denom, amount), r, old(View()), View())
    {
      if amount <= 0 {
        return Err(AmountMustBePositive);
      }
      r := Credit(payee, denom, amount);
    }

    // -------------------------------------------------------------- balances

    method Debit(who: Address, denom: Bytes, amount: I128) returns (r: Result<(), AppError>)
      modifies this`balances
      ensures Obeys(Transfer.Debit(old(View()), who, denom, amount), r, old(View()), View())
    {
      var cur := BalanceOf(who, denom);
      if cur < amount {
        return Err(InsufficientBalance);
      }
      if !InI128(cur - amount) {
        return Err(Aborted);
      }
      balances := balances[(who, denom) := cur - amount];
      r := Ok(());
    }

    method Credit(who: Address, denom: Bytes, amount: I128) returns (r: Result<(), AppError>)
      modifies this`balances
      ensures Obeys(Transfer.Credit(old(View()), who, denom, amount), r, old(View()), View())
    {
      var cur := BalanceOf(who, denom);
      if !InI128(cur + amount) {
        return Err(Aborted);
      }
      balances := balances[(who, denom) := cur + amount];
      r := Ok(());
    }

    /** Debit, then credit; the host undoes the debit if the credit traps. */
    method Move(payer: Address, payee: Address, denom: Bytes, amount: I128) returns (r: Result<(), AppError>)
      modifies this`balances
      ensures Obeys(Transfer.Move(old(View()), payer, payee, denom, amount), r, old(View()), View())
    {
      var saved := balances;
      r := Debit(payer, denom, amount);
      if r.Ok? {
        r := Credit(payee, denom, amount);
        if r.Err? {
          balances := saved;
        }
      }
    }

    method EnforceRateLimit(time: U64, denom: Bytes, amount: I128) returns (r: Result<(), AppError>)
      modifies this`usage
      ensures Obeys(EnforceLimit(old(View()), time, denom, amount), r, old(View()), View())
    {
      if denom !in caps {
        return Ok(());
      }
      var key := (denom, time / SECS_PER_DAY);
      var used := if key in usage then usage[key] else 0;
      if !InI128(used + amount) {
        return Err(Aborted);
      }
      if used + amount > caps[denom] {
        return Err(DailyLimitExceeded);
      }
      usage := usage[key := used + amount];
      r := Ok(());
    }

    // -------------------------------------------------------------- sending

    method Escrow(env: Env, o: Order) returns (r: Result<(), AppError>)
      modifies this`usage, this`balances
      ensures Obeys(Escrowed(old(View()), self, env, o), r, old(View()), View())
    {
      if o.sender !in env.auth {
        return Err(Aborted);
      }
      if o.amount <= 0 {
        return Err(AmountMustBePositive);
      }
      var saved := usage;
      r := EnforceRateLimit(env.time, o.denom, o.amount);
      if r.Ok? {
        r := Move(o.sender, self, o.denom, o.amount);
        if r.Err? {
          usage := saved;
        }
      }
    }

    /** Escrows, encodes and sends. A refusal anywhere below takes the whole transaction back. */
    method InitiateTransfer(env: Env, o: Order) returns (r: Result<U64, AppError>)
      requires router.Valid()
      modifies this`usage, this`balances
      modifies router`nextSeqSend, router`provable, router`commitments, router`events
      ensures router.Valid()
      ensures Obeys(ExecTransfer(Deployment(), old(Bridge(View(), router.View())), env, o), r,
                    old(Bridge(View(), router.View())), Bridge(View(), router.View()))
      ensures r.Ok? ==> r.value == NextSeq(router.View(), o.client)
    {
      var savedBalances, savedUsage := balances, usage;
      var escrowed := Escrow(env, o);
      if escrowed.Err? {
        return Err(escrowed.error);
      }
      var payload := BuildPayload(codec, o);
      if payload == None {
        balances, usage := savedBalances, savedUsage;
        return Err(Aborted);
      }
      var sent := router.SendPacket(env.(auth := {self}), o.client, o.timeout, [payload.value]);
      if sent.Err? {
        balances, usage := savedBalances, savedUsage;
        return Err(RouterRefused(sent.error));
      }
      r := Ok(sent.value);
    }

    // -------------------------------------------------------------- callbacks

    method Refund(d: PacketData) returns (r: Result<(), AppError>)
      modifies this`balances
      ensures Obeys(Transfer.Refund(codec, old(View()), self, d), r, old(View()), View())
    {
      var sender := ReadAddress(codec, d.sender);
      if sender == None {
        return Err(InvalidPacketData);
      }
      r := Move(self, sender.value, d.denom, d.amount);
    }

    method OnRecvPacket(auth: set<Address>, payload: Payload) returns (r: Result<Bytes, AppError>)
      modifies this`balances
      ensures routerAddr !in auth ==> r == Err(Aborted) && View() == old(View())
      ensures routerAddr in auth ==> Obeys(Transfer.OnRecvPacket(codec, old(View()), payload), r, old(View()), View())
      ensures r.Ok? ==> r.value == SUCCESS_ACK
    {
      if routerAddr !in auth {
        return Err(Aborted);
      }
      if payload.destPort != PORT {
        return Err(UnknownDestPort);
      }
      var d := codec.decode(payload.value);
      if d == None {
        return Err(InvalidPacketData);
      }
      var receiver := ReadAddress(codec, d.value.receiver);
      if receiver == None {
        return Err(InvalidPacketData);
      }
      var done := Credit(receiver.value, d.value.denom, d.value.amount);
      r := if done.Ok? then Ok(SUCCESS_ACK) else Err(done.error);
    }

    method OnAcknowledgementPacket(auth: set<Address>, payload: Payload, ack: Bytes) returns (r: Result<(), AppError>)
      modifies this`balances
      ensures routerAddr !in auth ==> r == Err(Aborted) && View() == old(View())
      ensures routerAddr in auth ==> Obeys(OnAckPacket(codec, old(View()), self, payload, ack), r, old(View()), View())
    {
      if routerAddr !in auth {
        return Err(Aborted);
      }
      if payload.sourcePort != PORT {
        return Err(UnknownSourcePort);
      }
      var success := IsSuccessAck(ack);
      if success {
        return Ok(());
      }
      var d := codec.decode(payload.value);
      if d == None {
        return Err(InvalidPacketData);
      }
      r := Refund(d.value);
    }

    method OnTimeoutPacket(auth: set<Address>, payload: Payload) returns (r: Result<(), AppError>)
      modifies this`balances
      ensures routerAddr !in auth ==> r == Err(Aborted) && View() == old(View())
      ensures routerAddr in auth ==> Obeys(Transfer.OnTimeoutPacket(codec, old(View()), self, payload), r, old(View()), View())
    {
      if routerAddr !in auth {
        return Err(Aborted);
      }
      if payload.sourcePort != PORT {
        return Err(UnknownSourcePort);
      }
      var d := codec.decode(payload.value);
      if d == None {
        return Err(InvalidPacketData);
      }
      r := Refund(d.value);
    }
  }

  // ---------------------------------------------------------------- strings and acknowledgements

  method BuildPayload(codec: Codec, o: Order) returns (r: Option<Payload>)
    ensures r == PayloadFor(codec, o)
  {
    var sender := WriteAddress(codec, o.sender);
    if sender == None || |o.denom| > 512 || |o.receiver| > 512 || |o.memo| > 512 {
      return None;
    }
    var value := codec.encode(PacketData(o.denom, o.amount, sender.value, o.receiver, o.memo));
    r := Some(Payload(PORT, PORT, VERSION, ENCODING, value));
  }

  /** Compares the prefix byte by byte. */
  method IsSuccessAck(ack: Bytes) returns (r: bool)
    ensures r == IsSuccess(ack)
  {
    if |ack| == 1 && ack[0] == 0x01 {
      return true;
    }
    if |ack| < |RESULT_PREFIX| {
      return false;
    }
    for i := 0 to |RESULT_PREFIX|
      invariant ack[..i] == RESULT_PREFIX[..i]
    {
      if ack[i] != RESULT_PREFIX[i] {
        return false;
      }
    }
    assert RESULT_PREFIX[..|RESULT_PREFIX|] == RESULT_PREFIX;
    r := true;
  }

  lemma HexStep(b: Bytes, i: nat)
    requires i < |b|
    ensures Hex(b[..i + 1]) == Hex(b[..i]) + [NibbleToHex(b[i] / 16), NibbleToHex(b[i] % 16)]
  {
    assert b[..i + 1][..i] == b[..i];
  }

  /** Fills the 512-byte hex buffer two digits at a time. */
  method WriteAddress(codec: Codec, a: Address) returns (r: Option<Bytes>)
    ensures r == AddressToString(codec, a)
  {
    var xdr := codec.xdr(a);
    if |xdr| > 256 {
      return None;
    }
    var hex := new Byte[512](_ => 0);
    for i := 0 to |xdr|
      invariant hex[..2 * i] == Hex(xdr[..i])
    {
      hex[2 * i] := NibbleToHex(xdr[i] / 16);
      hex[2 * i + 1] := NibbleToHex(xdr[i] % 16);
      HexStep(xdr, i);
      assert hex[..2 * (i + 1)] == hex[..2 * i] + [hex[2 * i], hex[2 * i + 1]];
    }
    assert xdr[..|xdr|] == xdr;
    r := Some(hex[..2 * |xdr|]);
  }

  lemma UnhexStep(s: Bytes, i: nat)
    requires |s| % 2 == 0 && 2 * i < |s|
    ensures Unhex(s[..2 * (i + 1)])
         == match (Unhex(s[..2 * i]), HexToNibble(s[2 * i]), HexToNibble(s[2 * i + 1]))
            case (Some(front), Some(hi), Some(lo)) => Some(front + [hi * 16 + lo])
            case _ => None
  {
    assert s[..2 * (i + 1)][..2 * i] == s[..2 * i];
  }

  lemma {:induction false} UnhexStops(s: Bytes, i: nat)
    requires |s| % 2 == 0 && 2 * i <= |s| && Unhex(s[..2 * i]) == None
    ensures Unhex(s) == None
    decreases |s| - 2 * i
  {
    if 2 * i < |s| {
      UnhexStep(s, i);
      UnhexStops(s, i + 1);
    } else {
      assert s[..2 * i] == s;
    }
  }

  method ReadAddress(codec: Codec, s: Bytes) returns (r: Option<Address>)
    ensures r == StringToAddress(codec, s)
  {
    if |s| % 2 != 0 || |s| > 512 {
      return None;
    }
    var buf := new Byte[256](_ => 0);
    var n := |s| / 2;
    for i := 0 to n
      invariant Unhex(s[..2 * i]) == Some(buf[..i])
    {
      var hi, lo := HexToNibble(s[2 * i]), HexToNibble(s[2 * i + 1]);
      UnhexStep(s, i);
      if hi == None || lo == None {
        UnhexStops(s, i + 1);
        return None;
      }
      buf[i] := hi.value * 16 + lo.value;
      assert buf[..i + 1] == buf[..i] + [buf[i]];
    }
    assert s[..2 * n] == s;
    r := codec.fromXdr(buf[..n]);
  }
}
