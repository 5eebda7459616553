/** The per-denomination daily cap over runs of the transfer application. */
module DailyCap {
  import opened Prelude
  import opened Router
  import opened Transfer
  import opened Escrow

  /** The amount of `denom` that a transaction, if it succeeds, sends on `day`. */
  function SendsOn(tx: BridgeTx, denom: Bytes, day: int): int {
    match tx.op
    case TransferOp(o) => if o.denom == denom && Day(tx.env.time) == day then o.amount else 0
    case _ => 0
  }

  /** The sum of the amounts successfully sent on `day` over a run. */
  function SentOn(su: Setup, b: Bridge, txs: seq<BridgeTx>, denom: Bytes, day: int): int {
    if |txs| == 0 then 0
    else
      var front, tx := txs[..|txs| - 1], txs[|txs| - 1];
      SentOn(su, b, front, denom, day)
      + (if ExecOp(su, RunBridge(su, b, front), tx.env, tx.op).Ok? then SendsOn(tx, denom, day) else 0)
  }

  predicate Capped(t: App, denom: Bytes, cap: I128) {
    denom in t.caps && t.caps[denom] == cap
  }

  predicate LeavesCap(tx: BridgeTx, denom: Bytes) {
    tx.op.CapOp? ==> tx.op.denom != denom
  }

  lemma {:induction false} CallsLeaveLimits(su: Setup, t: App, calls: seq<Call>)
    requires RunCalls(su, t, calls).Ok?
    ensures RunCalls(su, t, calls).value.caps == t.caps && RunCalls(su, t, calls).value.usage == t.usage
    decreases |calls|
  {
    if |calls| > 0 {
      CallsLeaveLimits(su, OneCall(su, t, calls[0]).value, calls[1..]);
    }
  }

  lemma TransferUnderCap(su: Setup, b: Bridge, env: Env, o: Order, denom: Bytes, cap: I128, day: int)
    requires Capped(b.app, denom, cap) && ExecTransfer(su, b, env, o).Ok?
    ensures var t := ExecTransfer(su, b, env, o).value.app;
            var sent := if o.denom == denom && Day(env.time) == day then o.amount else 0;
            && o.amount > 0 && Capped(t, denom, cap)
            && Usage(t, denom, day) == Usage(b.app, denom, day) + sent
            && (sent > 0 ==> Usage(t, denom, day) <= cap)
  {
    var t := EnforceLimit(b.app, env.time, o.denom, o.amount).value;
    assert ExecTransfer(su, b, env, o).value.app.usage == t.usage;
  }

  /** Only a transfer touches the usage; with the cap in force it records exactly its amount on
      its day, and it does not succeed beyond the cap. */
  lemma StepUnderCap(su: Setup, b: Bridge, tx: BridgeTx, denom: Bytes, cap: I128, day: int)
    requires Capped(b.app, denom, cap) && LeavesCap(tx, denom) && ExecOp(su, b, tx.env, tx.op).Ok?
    ensures var t := ExecOp(su, b, tx.env, tx.op).value.app;
            && Capped(t, denom, cap)
            && SendsOn(tx, denom, day) >= 0
            && Usage(t, denom, day) == Usage(b.app, denom, day) + SendsOn(tx, denom, day)
            && (SendsOn(tx, denom, day) > 0 ==> Usage(t, denom, day) <= cap)
  {
    var b' := ExecOp(su, b, tx.env, tx.op).value;
    match tx.op
    case MintOp(_, _, _) =>
    case CapOp(_, _) =>
    case TransferOp(o) => TransferUnderCap(su, b, tx.env, o, denom, cap, day);
    case RouterOp(a) => CallsLeaveLimits(su, b.app, b'.router.calls[|b.router.calls|..]);
  }

  /** While the cap of a denomination stays in force, the amounts sent on a day sum to the recorded
      increase in usage, and as soon as anything was sent that day, usage is at most the cap.
      Transactions that fail count nothing on either side. */
  lemma {:induction false} UsageRecordsSends(su: Setup, b: Bridge, txs: seq<BridgeTx>, denom: Bytes, cap: I128, day: int)
    requires Capped(b.app, denom, cap)
    requires forall k :: 0 <= k < |txs| ==> LeavesCap(txs[k], denom)
    ensures var t := RunBridge(su, b, txs).app;
            && Capped(t, denom, cap)
            && SentOn(su, b, txs, denom, day) >= 0
            && Usage(t, denom, day) == Usage(b.app, denom, day) + SentOn(su, b, txs, denom, day)
            && (SentOn(su, b, txs, denom, day) > 0 ==> Usage(t, denom, day) <= cap)
  {
    if |txs| > 0 {
      var front, tx := txs[..|txs| - 1], txs[|txs| - 1];
      var mid := RunBridge(su, b, front);
      UsageRecordsSends(su, b, front, denom, cap, day);
      if ExecOp(su, mid, tx.env, tx.op).Ok? {
        StepUnderCap(su, mid, tx, denom, cap, day);
      }
    }
  }

  // ---------------------------------------------------------------- from deployment on

  ghost predicate LimitsNonNegative(t: App) {
    (forall k :: k in t.usage ==> t.usage[k] >= 0) && (forall d :: d in t.caps ==> t.caps[d] >= 0)
  }

  lemma StepKeepsLimitsNonNegative(su: Setup, b: Bridge, tx: BridgeTx)
    requires LimitsNonNegative(b.app) && ExecOp(su, b, tx.env, tx.op).Ok?
    ensures LimitsNonNegative(ExecOp(su, b, tx.env, tx.op).value.app)
  {
    var b' := ExecOp(su, b, tx.env, tx.op).value;
    match tx.op
    case MintOp(_, _, _) =>
    case CapOp(_, _) =>
    case TransferOp(o) =>
    case RouterOp(a) => CallsLeaveLimits(su, b.app, b'.router.calls[|b.router.calls|..]);
  }

  lemma {:induction false} RunKeepsLimitsNonNegative(su: Setup, b: Bridge, txs: seq<BridgeTx>)
    requires LimitsNonNegative(b.app)
    ensures LimitsNonNegative(RunBridge(su, b, txs).app)
  {
    if |txs| > 0 {
      var front, tx := txs[..|txs| - 1], txs[|txs| - 1];
      RunKeepsLimitsNonNegative(su, b, front);
      if ExecOp(su, RunBridge(su, b, front), tx.env, tx.op).Ok? {
        StepKeepsLimitsNonNegative(su, RunBridge(su, b, front), tx);
      }
    }
  }

  /** From deployment on: what is sent on any day while a cap is in force never exceeds it. */
  lemma DailyTotalWithinCap(su: Setup, b: Bridge, before: seq<BridgeTx>, txs: seq<BridgeTx>, denom: Bytes, cap: I128, day: int)
    requires b.app.usage == map[] && b.app.caps == map[] && Capped(RunBridge(su, b, before).app, denom, cap)
    requires forall k :: 0 <= k < |txs| ==> LeavesCap(txs[k], denom)
    ensures SentOn(su, RunBridge(su, b, before), txs, denom, day) <= cap
  {
    RunKeepsLimitsNonNegative(su, b, before);
    UsageRecordsSends(su, RunBridge(su, b, before), txs, denom, cap, day);
  }
}
