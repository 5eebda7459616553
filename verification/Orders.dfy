/** Which credits of one chain stand for an escrowed transfer order of the other. */
module Orders {
  import opened Prelude
  import opened Commitments
  import opened Router
  import opened RouterRuns
  import opened Settleable
  import opened TwoChains
  import opened PacketSafety
  import opened Transfer
  import opened Escrow
  import opened EscrowRuns
  import opened Credits
  import opened TwoBridges
  import opened Backing

  // ---------------------------------------------------------------- orders placed in a run

  /** The step was a successful `initiate_transfer` of `o` on `side`, and `p` is the packet it sent. */
  ghost predicate Places(pl: Plan, d: Duo, s: DuoStep, side: Side, o: Order, p: Packet) {
    && s.Act? && s.side == side && s.tx.op == TransferOp(o)
    && var r := ExecTransfer(pl.At(side), d.BridgeAt(side), s.tx.env, o);
       && r.Ok? && PayloadFor(pl.At(side).codec, o).Some?
       && p.payloads == [PayloadFor(pl.At(side).codec, o).value]
       && r.value.router.events == d.BridgeAt(side).router.events + [SendPacket(p)]
  }

  /** Some step of the run placed the order `o` with packet `p`. */
  ghost predicate Placed(pl: Plan, start: Duo, steps: seq<DuoStep>, side: Side, o: Order, p: Packet) {
    && |steps| > 0
    && (|| Placed(pl, start, steps[..|steps| - 1], side, o, p)
        || Places(pl, RunDuo(pl, start, steps[..|steps| - 1]), steps[|steps| - 1], side, o, p))
  }

  /** Placing an order adds to escrow exactly what its payload tells the destination to credit. */
  lemma PlacingEscrows(pl: Plan, d: Duo, s: DuoStep, side: Side, o: Order, p: Packet)
    requires Compatible(pl) && s.Act? && Permitted(pl.At(s.side), s.tx) && Places(pl, d, s, side, o, p)
    ensures p.payloads[0].sourcePort == PORT && p.payloads[0].destPort == PORT
    ensures NextDuo(pl, d, s).world.At(side).router.events == d.world.At(side).router.events + [SendPacket(p)]
    ensures forall denom ::
              Balance(NextDuo(pl, d, s).AppAt(side), pl.At(side).self, denom)
              == Balance(d.AppAt(side), pl.At(side).self, denom) + Amount(pl.At(side), p.payloads[0], denom)
  {
    var su, b := pl.At(side), d.BridgeAt(side);
    EscrowedBalances(su, b.app, s.tx.env, o);
    OrderIsRefundable(su, o);
    assert ExecOp(su, b, s.tx.env, s.tx.op) == ExecTransfer(su, b, s.tx.env, o);
  }

  // ---------------------------------------------------------------- every own send was an order

  predicate UsesPort(p: Packet) {
    exists i :: 0 <= i < |p.payloads| && p.payloads[i].sourcePort == PORT
  }

  lemma TransferPlaces(pl: Plan, d: Duo, s: DuoStep, o: Order)
    requires s.Act? && s.tx.op == TransferOp(o) && ExecTransfer(pl.At(s.side), d.BridgeAt(s.side), s.tx.env, o).Ok?
    ensures exists p :: Places(pl, d, s, s.side, o, p)
  {
    var su, b := pl.At(s.side), d.BridgeAt(s.side);
    var payload := PayloadFor(su.codec, o).value;
    SendSends(su.sha, b.router, s.tx.env.(auth := {su.self}), o.client, o.timeout, [payload]);
    var p := Packet(NextSeq(b.router, o.client) + 1, o.client, b.router.counterparty[o.client].clientId, o.timeout, [payload]);
    assert Places(pl, d, s, s.side, o, p);
  }

  /** Of the events a step adds, only an order's packet uses the transfer port. */
  lemma StepPlaces(pl: Plan, d: Duo, s: DuoStep, side: Side, p: Packet)
    requires PortHeld(pl.At(side), d.world.At(side).router) && LegalStep(pl, d, s)
    requires SendPacket(p) in NextDuo(pl, d, s).world.At(side).router.events
    requires SendPacket(p) !in d.world.At(side).router.events && UsesPort(p)
    ensures exists o :: Places(pl, d, s, side, o, p)
  {
    assert s.Act? && s.side == side;
    var su, b := pl.At(side), d.BridgeAt(side);
    var b' := ExecOp(su, b, s.tx.env, s.tx.op).value;
    match s.tx.op
    case TransferOp(o) =>
      TransferPlaces(pl, d, s, o);
      var q :| Places(pl, d, s, side, o, q);
      assert q == p;
    case RouterOp(a) =>
      ForeignOpSpares(su, b, s.tx, a, p);
    case _ =>
  }

  lemma ForeignOpSpares(su: Setup, b: Bridge, tx: BridgeTx, a: Action, p: Packet)
    requires PortHeld(su, b.router) && Permitted(su, tx) && tx.op == RouterOp(a) && ExecRouter(su, b, tx.env, a).Ok?
    requires SendPacket(p) in ExecRouter(su, b, tx.env, a).value.router.events && SendPacket(p) !in b.router.events
    ensures !UsesPort(p)
  {
    OnlySendSends(su.sha, b.router, tx.env, a, p);
    ForeignSendAvoidsPort(su, b, tx.env, a.client, a.timeout, a.payloads);
  }

  /** Every packet a chain sent that uses the transfer port was sent by a successful order of the run. */
  lemma {:induction false} OwnSendsWerePlaced(pl: Plan, start: Duo, steps: seq<DuoStep>, side: Side, p: Packet)
    requires DuoStart(pl, start) && LegalDuoRun(pl, start, steps)
    requires SendPacket(p) in RunDuo(pl, start, steps).world.At(side).router.events && UsesPort(p)
    ensures exists o :: Placed(pl, start, steps, side, o, p)
  {
    assert PortOpened(pl.At(side), start.BridgeAt(side));
    if |steps| > 0 {
      var front, s := steps[..|steps| - 1], steps[|steps| - 1];
      var d := RunDuo(pl, start, front);
      LegalPrefix(pl, start, steps);
      if SendPacket(p) in d.world.At(side).router.events {
        OwnSendsWerePlaced(pl, start, front, side, p);
        var o :| Placed(pl, start, front, side, o, p);
        assert Placed(pl, start, steps, side, o, p);
      } else {
        StartTallies(pl, Link({}, {}), start, side, []);
        RunTallies(pl, Link({}, {}), start, front, side, []);
        StepPlaces(pl, d, s, side, p);
        var o :| Places(pl, d, s, side, o, p);
        assert Placed(pl, start, steps, side, o, p);
      }
    }
  }

  // ---------------------------------------------------------------- exactly when a credit is matched

  /** Payload `i` of `q` is the payload of a successful order of the sending chain, whose packet is `q`,
      and which was not refunded, so that its amount is still in escrow. */
  ghost predicate Matched(pl: Plan, start: Duo, steps: seq<DuoStep>, side: Side, q: Packet, i: nat)
    requires i < |q.payloads|
  {
    && (exists o :: Placed(pl, start, steps, side, o, q) && PayloadFor(pl.At(side).codec, o) == Some(q.payloads[i]))
    && SourceKey(q) in Outstanding(pl.At(side).sha, RunDuo(pl, start, steps).world.At(side).router.events)
  }

  lemma MatchedUsesPort(pl: Plan, start: Duo, steps: seq<DuoStep>, side: Side, q: Packet, i: nat)
    requires i < |q.payloads| && Matched(pl, start, steps, side, q, i)
    ensures q.payloads[i].sourcePort == PORT
  {
  }

  lemma OwnIsMatched(pl: Plan, start: Duo, steps: seq<DuoStep>, side: Side, q: Packet, i: nat)
    requires DuoStart(pl, start) && LegalDuoRun(pl, start, steps)
    requires i < |q.payloads| && q.payloads[i].sourcePort == PORT
    requires Genuine(pl.At(side), RunDuo(pl, start, steps).world.At(side), q)
    ensures Matched(pl, start, steps, side, q, i)
  {
    assert SendPacket(q) in RunDuo(pl, start, steps).world.At(side).router.events;
    OwnSendsWerePlaced(pl, start, steps, side, q);
    var o :| Placed(pl, start, steps, side, o, q);
    PlacedPayload(pl, start, steps, side, o, q);
  }

  lemma {:induction false} PlacedPayload(pl: Plan, start: Duo, steps: seq<DuoStep>, side: Side, o: Order, p: Packet)
    requires Placed(pl, start, steps, side, o, p)
    ensures PayloadFor(pl.At(side).codec, o).Some? && p.payloads == [PayloadFor(pl.At(side).codec, o).value]
  {
    if Placed(pl, start, steps[..|steps| - 1], side, o, p) {
      PlacedPayload(pl, start, steps[..|steps| - 1], side, o, p);
    }
  }

  /** Over every legal run and honest clients: a payload credited on one chain is matched by an outstanding,
      escrowed order of the other if and only if its source port is the transfer port, or a collision is
      computed. `on_recv_packet` does not look at the source port, so both kinds are credited. */
  lemma CreditMatchedExactly(pl: Plan, start: Duo, steps: seq<DuoStep>, side: Side, q: Packet, i: nat)
    requires Compatible(pl) && DuoStart(pl, start) && LegalDuoRun(pl, start, steps)
    requires var end := RunDuo(pl, start, steps);
             && RecvPacket(q) in end.world.At(Other(side)).router.events
             && Delivered(end.world.At(side), end.world.At(Other(side)), q)
    requires i < |q.payloads| && q.payloads[i].destPort == PORT
    ensures var end := RunDuo(pl, start, steps);
            || (Matched(pl, start, steps, side, q, i) <==> q.payloads[i].sourcePort == PORT)
            || Collides(pl.At(side).sha, end.world.At(side), end.world.At(Other(side)), q)
            || SomeForgingStep(pl, start, steps)
  {
    DuoStartInv(pl, start);
    RunKeepsDuo(pl, start, steps);
    var end := RunDuo(pl, start, steps);
    if q.payloads[i].sourcePort != PORT {
      if Matched(pl, start, steps, side, q, i) {
        MatchedUsesPort(pl, start, steps, side, q, i);
      }
    } else if DuoInv(pl, end) {
      GenuineAt(pl, end, side, q);
      if Genuine(pl.At(side), end.world.At(side), q) {
        OwnIsMatched(pl, start, steps, side, q, i);
      }
    }
  }

  lemma GenuineAt(pl: Plan, d: Duo, side: Side, q: Packet)
    requires Compatible(pl) && DuoInv(pl, d)
    requires RecvPacket(q) in d.world.At(Other(side)).router.events
    requires Delivered(d.world.At(side), d.world.At(Other(side)), q) && CarriesTransfer(q)
    ensures Genuine(pl.At(side), d.world.At(side), q) || Collides(pl.At(side).sha, d.world.At(side), d.world.At(Other(side)), q)
  {
    assert BridgeOk(pl.At(side), d.BridgeAt(side)) && BridgeOk(pl.At(Other(side)), d.BridgeAt(Other(side)));
    TransferIsGenuine(pl.At(side), pl.At(Other(side)), d.world.At(side), d.world.At(Other(side)), q);
  }
}
