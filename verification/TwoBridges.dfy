/** Two chains, each with a router and the transfer application on it, and an arbitrary relayer. */
module TwoBridges {
  import opened Prelude
  import opened Commitments
  import opened Router
  import opened RouterRuns
  import opened TwoChains
  import opened Transfer
  import opened Escrow
  import opened EscrowRuns

  datatype Plan = Plan(left: Setup, right: Setup) {
    function At(s: Side): Setup {
      if s == Left then left else right
    }
  }

  datatype Duo = Duo(world: World, left: App, right: App) {
    function AppAt(s: Side): App {
      if s == Left then left else right
    }

    function BridgeAt(s: Side): Bridge {
      Bridge(AppAt(s), world.At(s).router)
    }

    function With(s: Side, b: Bridge): Duo {
      var w := world.With(s, world.At(s).(router := b.router));
      if s == Left then Duo(w, b.app, right) else Duo(w, left, b.app)
    }
  }

  datatype DuoStep =
    | Act(side: Side, tx: BridgeTx)
    | Close(side: Side, time: U64)

  function NextDuo(pl: Plan, d: Duo, s: DuoStep): Duo {
    match s
    case Act(side, tx) =>
      (match ExecOp(pl.At(side), d.BridgeAt(side), tx.env, tx.op)
       case Ok(b) => d.With(side, b)
       case Err(_) => d)
    case Close(side, time) => d.(world := Next(pl.At(side).sha, d.world, CloseBlock(side, time)))
  }

  function RunDuo(pl: Plan, d: Duo, steps: seq<DuoStep>): Duo {
    if |steps| == 0 then d else NextDuo(pl, RunDuo(pl, d, steps[..|steps| - 1]), steps[|steps| - 1])
  }

  /** The router transaction an operation amounts to. */
  function Lowered(su: Setup, tx: BridgeTx): Option<Tx> {
    match tx.op
    case TransferOp(o) =>
      (match PayloadFor(su.codec, o)
       case None => None
       case Some(payload) => Some(Tx(tx.env.(auth := {su.self}), DoSend(o.client, o.timeout, [payload]))))
    case RouterOp(a) => Some(Tx(tx.env, a))
    case _ => None
  }

  /** What is asked of a step: its router transaction is legal between the two chains, and the
      operation is permitted to the application. */
  ghost predicate LegalStep(pl: Plan, d: Duo, s: DuoStep) {
    match s
    case Act(side, tx) =>
      && Permitted(pl.At(side), tx)
      && (Lowered(pl.At(side), tx).Some? ==> Legal(d.world, Transact(side, Lowered(pl.At(side), tx).value)))
    case Close(side, time) => Legal(d.world, CloseBlock(side, time))
  }

  ghost predicate LegalDuoRun(pl: Plan, d: Duo, steps: seq<DuoStep>) {
    forall k :: 0 <= k < |steps| ==> LegalStep(pl, RunDuo(pl, d, steps[..k]), steps[k])
  }

  /** One hash and one codec on both chains, and the codec reads back what it wrote. */
  ghost predicate Compatible(pl: Plan) {
    && pl.left.sha == pl.right.sha && pl.left.codec == pl.right.codec
    && Inverts(pl.left.codec)
  }

  /** Two fresh chains whose first transaction opened the transfer port to the application. */
  ghost predicate DuoStart(pl: Plan, d: Duo) {
    forall s: Side ::
      && d.world.At(s).blocks == []
      && PortOpened(pl.At(s), d.BridgeAt(s))
  }

  ghost predicate PortOpened(su: Setup, b: Bridge) {
    && b.router == Initial(b.router.admin).(port := map[PORT := su.self])
    && forall denom :: Balance(b.app, su.self, denom) >= 0
  }

  // ---------------------------------------------------------------- the invariant

  /** The application answers every receive with the success byte. */
  ghost predicate RepliesSucceed(su: Setup, calls: seq<Call>) {
    forall c :: c in calls && c.OnRecv? && c.app == su.self ==> c.reply == SUCCESS_ACK
  }

  ghost predicate BridgeOk(su: Setup, b: Bridge) {
    BridgeInv(su, b) && RepliesSucceed(su, b.router.calls)
  }

  ghost predicate DuoInv(pl: Plan, d: Duo) {
    && WorldInv(pl.left.sha, d.world)
    && BridgeOk(pl.left, d.BridgeAt(Left)) && BridgeOk(pl.right, d.BridgeAt(Right))
  }

  lemma OpenedIsOk(su: Setup, b: Bridge)
    requires PortOpened(su, b)
    ensures BridgeOk(su, b)
  {
    var st := Initial(b.router.admin);
    InitialInv(su.sha, b.router.admin);
    QuietStepKeeps(su.sha, st, b.router);
    assert b.router.events == [];
  }

  lemma DuoStartInv(pl: Plan, d: Duo)
    requires Compatible(pl) && DuoStart(pl, d)
    ensures DuoInv(pl, d)
  {
    var l, r := d.BridgeAt(Left), d.BridgeAt(Right);
    assert d.world.At(Left).blocks == [] && PortOpened(pl.At(Left), l);
    assert d.world.At(Right).blocks == [] && PortOpened(pl.At(Right), r);
    OpenedIsOk(pl.left, l);
    OpenedIsOk(pl.right, r);
    FreshSide(pl.left.sha, d.world.left, d.world.right);
    FreshSide(pl.left.sha, d.world.right, d.world.left);
  }

  lemma FreshSide(sha: Hash, self: Chain, peer: Chain)
    requires Inv(sha, self.router) && self.blocks == [] && self.router.events == [] && self.router.counterparty == map[]
    ensures SideInv(sha, self, peer)
  {
  }

  // ---------------------------------------------------------------- steps

  lemma LoweredStep(su: Setup, b: Bridge, tx: BridgeTx)
    requires ExecOp(su, b, tx.env, tx.op).Ok?
    ensures var low := Lowered(su, tx);
            var b' := ExecOp(su, b, tx.env, tx.op).value;
            b'.router == if low.Some? then Step(su.sha, b.router, low.value.env, low.value.action) else b.router
  {
    match tx.op
    case TransferOp(o) =>
    case RouterOp(a) =>
    case _ =>
  }

  lemma {:induction false} AcceptedReplies(su: Setup, t: App, calls: seq<Call>)
    requires RunCalls(su, t, calls).Ok?
    ensures RepliesSucceed(su, calls)
    decreases |calls|
  {
    if |calls| > 0 {
      AcceptedReplies(su, OneCall(su, t, calls[0]).value, calls[1..]);
      assert calls == [calls[0]] + calls[1..];
    }
  }

  lemma ExecOpKeepsReplies(su: Setup, b: Bridge, tx: BridgeTx)
    requires Inv(su.sha, b.router) && RepliesSucceed(su, b.router.calls) && ExecOp(su, b, tx.env, tx.op).Ok?
    ensures RepliesSucceed(su, ExecOp(su, b, tx.env, tx.op).value.router.calls)
  {
    var b' := ExecOp(su, b, tx.env, tx.op).value;
    ExecOpKeepsRouter(su, b, tx.env, tx.op);
    var more := b'.router.calls[|b.router.calls|..];
    assert b'.router.calls == b.router.calls + more;
    if tx.op.RouterOp? {
      AcceptedReplies(su, b.app, more);
    } else {
      NoNewCalls(su, b, tx);
    }
  }

  lemma NoNewCalls(su: Setup, b: Bridge, tx: BridgeTx)
    requires !tx.op.RouterOp? && ExecOp(su, b, tx.env, tx.op).Ok?
    ensures ExecOp(su, b, tx.env, tx.op).value.router.calls == b.router.calls
  {
    match tx.op
    case TransferOp(o) => TransferSupply(su, b, tx.env, o, []);
    case _ =>
  }

  /** A step after which the invariant may fail: it settles a packet that was not sent. */
  ghost predicate ForgingStep(pl: Plan, d: Duo, s: DuoStep) {
    s.Act? && Forged(pl.At(s.side), d.BridgeAt(s.side), s.tx)
  }

  lemma StepKeepsBridge(su: Setup, b: Bridge, tx: BridgeTx)
    requires BridgeOk(su, b) && Inverts(su.codec) && Permitted(su, tx) && ExecOp(su, b, tx.env, tx.op).Ok?
    ensures BridgeOk(su, ExecOp(su, b, tx.env, tx.op).value) || Forged(su, b, tx)
  {
    if Forges(su, b, tx) {
      ForgerWasForging(su, b, tx);
    } else {
      ExecOpKeeps(su, b, tx);
      ExecOpKeepsReplies(su, b, tx);
    }
  }

  lemma ActKeepsWorld(pl: Plan, d: Duo, side: Side, tx: BridgeTx)
    requires Compatible(pl) && WorldInv(pl.left.sha, d.world) && LegalStep(pl, d, Act(side, tx))
    requires ExecOp(pl.At(side), d.BridgeAt(side), tx.env, tx.op).Ok?
    ensures WorldInv(pl.left.sha, NextDuo(pl, d, Act(side, tx)).world)
  {
    var su := pl.At(side);
    var low := Lowered(su, tx);
    LoweredStep(su, d.BridgeAt(side), tx);
    var d' := NextDuo(pl, d, Act(side, tx));
    if low.Some? {
      StepKeepsWorld(su.sha, d.world, Transact(side, low.value));
      assert d'.world == Next(su.sha, d.world, Transact(side, low.value));
    } else {
      assert d'.world == d.world;
    }
  }

  lemma StepKeepsDuo(pl: Plan, d: Duo, s: DuoStep)
    requires Compatible(pl) && DuoInv(pl, d) && LegalStep(pl, d, s)
    ensures DuoInv(pl, NextDuo(pl, d, s)) || ForgingStep(pl, d, s)
  {
    match s
    case Close(side, time) =>
      StepKeepsWorld(pl.left.sha, d.world, CloseBlock(side, time));
    case Act(side, tx) =>
      if ExecOp(pl.At(side), d.BridgeAt(side), tx.env, tx.op).Ok? {
        ActKeepsWorld(pl, d, side, tx);
        StepKeepsBridge(pl.At(side), d.BridgeAt(side), tx);
      }
  }

  ghost predicate SomeForgingStep(pl: Plan, d: Duo, steps: seq<DuoStep>) {
    exists k :: 0 <= k < |steps| && ForgingStep(pl, RunDuo(pl, d, steps[..k]), steps[k])
  }

  lemma LegalPrefix(pl: Plan, d: Duo, steps: seq<DuoStep>)
    requires LegalDuoRun(pl, d, steps) && |steps| > 0
    ensures LegalDuoRun(pl, d, steps[..|steps| - 1])
    ensures LegalStep(pl, RunDuo(pl, d, steps[..|steps| - 1]), steps[|steps| - 1])
  {
    var front := steps[..|steps| - 1];
    forall k | 0 <= k < |front| ensures LegalStep(pl, RunDuo(pl, d, front[..k]), front[k]) {
      assert front[..k] == steps[..k];
    }
  }

  lemma ForgedEarlier(pl: Plan, d: Duo, steps: seq<DuoStep>)
    requires |steps| > 0 && SomeForgingStep(pl, d, steps[..|steps| - 1])
    ensures SomeForgingStep(pl, d, steps)
  {
    var front := steps[..|steps| - 1];
    var k :| 0 <= k < |front| && ForgingStep(pl, RunDuo(pl, d, front[..k]), front[k]);
    assert front[..k] == steps[..k];
  }

  lemma {:induction false} RunKeepsDuo(pl: Plan, d: Duo, steps: seq<DuoStep>)
    requires Compatible(pl) && DuoInv(pl, d) && LegalDuoRun(pl, d, steps)
    ensures DuoInv(pl, RunDuo(pl, d, steps)) || SomeForgingStep(pl, d, steps)
  {
    if |steps| > 0 {
      var front := steps[..|steps| - 1];
      LegalPrefix(pl, d, steps);
      RunKeepsDuo(pl, d, front);
      if SomeForgingStep(pl, d, front) {
        ForgedEarlier(pl, d, steps);
      } else {
        StepKeepsDuo(pl, RunDuo(pl, d, front), steps[|steps| - 1]);
      }
    }
  }
}
