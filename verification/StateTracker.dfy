/** The gateway's state tracker: cumulative replay of ledger changes with a root cache. */
module StateTracker {
  import opened Prelude
  import opened MerkleTree
  import opened SmtStore
  import opened Paths
  import P = ProofPipeline
  import W = ProofWire

  datatype ScVal = ScBytes(bytes: Bytes) | ScOther

  datatype Address = Contract(hash: Digest) | Account

  datatype Change =
    | Created(contract: Address, key: ScVal, val: ScVal)
    | Updated(contract: Address, key: ScVal, val: ScVal)
    | Removed(contract: Address, key: ScVal)
    | Unrelated

  predicate Matches(id: Option<Digest>, a: Address) {
    a.Contract? && (id == None || a.hash == id.value)
  }

  function V2Path(key: ScVal): Option<Bytes> {
    if key.ScBytes? && IsProvable(key.bytes) then Some(key.bytes) else None
  }

  /** The tree write a ledger change amounts to; a removal writes the empty value. */
  function Effect(id: Option<Digest>, c: Change): Option<Write> {
    match c
    case Unrelated => None
    case Removed(contract, key) =>
      if Matches(id, contract) && V2Path(key).Some? then Some(Write(V2Path(key).value, [])) else None
    case Created(contract, key, val) => DataWrite(id, contract, key, val)
    case Updated(contract, key, val) => DataWrite(id, contract, key, val)
  }

  function DataWrite(id: Option<Digest>, contract: Address, key: ScVal, val: ScVal): Option<Write> {
    if Matches(id, contract) && V2Path(key).Some? && val.ScBytes?
    then Some(Write(V2Path(key).value, val.bytes)) else None
  }

  function Effects(id: Option<Digest>, cs: seq<Change>): seq<Write> {
    if |cs| == 0 then []
    else
      var front := Effects(id, cs[..|cs| - 1]);
      match Effect(id, cs[|cs| - 1])
      case Some(w) => front + [w]
      case None => front
  }

  /** The closed ledgers: what each of them changed. */
  type Chain = int -> seq<Change>

  /** All writes of the ledgers `from` to `upto`, in order. */
  function Writes(chain: Chain, id: Option<Digest>, from: int, upto: int): seq<Write>
    decreases upto - from
  {
    if upto < from then [] else Writes(chain, id, from, upto - 1) + Effects(id, chain(upto))
  }

  /** The reference: fold everything from `from` to `upto` into the empty tree. */
  function Replayed(sha: Hash, chain: Chain, id: Option<Digest>, from: int, upto: int): Leaves {
    ApplyAll(sha, map[], Writes(chain, id, from, upto))
  }

  // ---------------------------------------------------------------- replay is idempotent

  lemma {:induction false} ApplyAllConcat(sha: Hash, leaves: Leaves, xs: seq<Write>, ys: seq<Write>)
    ensures ApplyAll(sha, leaves, xs + ys) == ApplyAll(sha, ApplyAll(sha, leaves, xs), ys)
  {
    if |ys| == 0 {
      assert xs + ys == xs;
    } else {
      var front := ys[..|ys| - 1];
      assert (xs + ys)[..|xs + ys| - 1] == xs + front;
      ApplyAllConcat(sha, leaves, xs, front);
    }
  }

  lemma {:induction false} LastWriteConcat(sha: Hash, xs: seq<Write>, ys: seq<Write>, i: U64)
    ensures LastWrite(sha, xs + ys, i)
         == if LastWrite(sha, ys, i).Some? then LastWrite(sha, ys, i) else LastWrite(sha, xs, i)
  {
    if |ys| == 0 {
      assert xs + ys == xs;
    } else {
      var front := ys[..|ys| - 1];
      assert (xs + ys)[..|xs + ys| - 1] == xs + front;
      LastWriteConcat(sha, xs, front, i);
    }
  }

  lemma {:induction false} WritesSplit(chain: Chain, id: Option<Digest>, from: int, mid: int, upto: int)
    requires from <= mid + 1 && mid <= upto
    ensures Writes(chain, id, from, upto) == Writes(chain, id, from, mid) + Writes(chain, id, mid + 1, upto)
    decreases upto - mid
  {
    if mid == upto {
      assert Writes(chain, id, from, mid) + [] == Writes(chain, id, from, mid);
    } else {
      WritesSplit(chain, id, from, mid, upto - 1);
      assert Writes(chain, id, from, mid) + (Writes(chain, id, mid + 1, upto - 1) + Effects(id, chain(upto)))
          == Writes(chain, id, from, mid) + Writes(chain, id, mid + 1, upto - 1) + Effects(id, chain(upto));
    }
  }

  /** The tree may differ from the reference at `last` only in slots that the ledgers
      after `last` and up to `asked` write: what an interrupted replay leaves behind. */
  ghost predicate CleanUpTo(sha: Hash, chain: Chain, id: Option<Digest>, first: int, last: int, asked: int, leaves: Leaves) {
    forall i: U64 :: LastWrite(sha, Writes(chain, id, last + 1, asked), i) == None ==>
      At(leaves, i) == At(Replayed(sha, chain, id, first, last), i)
  }

  /** A partial replay keeps the tree clean outside the ledgers being replayed. */
  lemma PartialReplay(sha: Hash, chain: Chain, id: Option<Digest>, first: int, last: int, asked: int, asked': int,
                      leaves: Leaves, reached: int)
    requires last <= asked <= asked' && last <= reached <= asked'
    requires CleanUpTo(sha, chain, id, first, last, asked, leaves)
    ensures CleanUpTo(sha, chain, id, first, last, asked', ApplyAll(sha, leaves, Writes(chain, id, last + 1, reached)))
  {
    var ws := Writes(chain, id, last + 1, reached);
    WritesSplit(chain, id, last + 1, reached, asked');
    WritesSplit(chain, id, last + 1, asked, asked');
    forall i: U64 | LastWrite(sha, Writes(chain, id, last + 1, asked'), i) == None
      ensures At(ApplyAll(sha, leaves, ws), i) == At(Replayed(sha, chain, id, first, last), i)
    {
      LastWriteConcat(sha, ws, Writes(chain, id, reached + 1, asked'), i);
      LastWriteConcat(sha, Writes(chain, id, last + 1, asked), Writes(chain, id, asked + 1, asked'), i);
      SlotAfterWrites(sha, leaves, ws, i);
    }
  }

  /** A completed replay reaches the reference, whatever an interrupted one left behind. */
  lemma CompleteReplay(sha: Hash, chain: Chain, id: Option<Digest>, first: int, last: int, asked: int, upto: int,
                       start: int, leaves: Leaves, leaves': Leaves)
    requires first <= last <= asked <= upto && start == last + 1
    requires leaves' == ApplyAll(sha, leaves, Writes(chain, id, start, upto))
    requires CleanUpTo(sha, chain, id, first, last, asked, leaves)
    ensures leaves' == Replayed(sha, chain, id, first, upto)
  {
    var ws := Writes(chain, id, last + 1, upto);
    WritesSplit(chain, id, first, last, upto);
    ApplyAllConcat(sha, map[], Writes(chain, id, first, last), ws);
    WritesSplit(chain, id, last + 1, asked, upto);
    forall i: U64 ensures At(ApplyAll(sha, leaves, ws), i) == At(Replayed(sha, chain, id, first, upto), i) {
      SlotAfterWrites(sha, leaves, ws, i);
      SlotAfterWrites(sha, Replayed(sha, chain, id, first, last), ws, i);
      LastWriteConcat(sha, Writes(chain, id, last + 1, asked), Writes(chain, id, asked + 1, upto), i);
    }
    LeavesExtensional(ApplyAll(sha, leaves, ws), Replayed(sha, chain, id, first, upto));
  }

  // ---------------------------------------------------------------- the tracker as a value

  /** `first` is the first ledger answered, `asked` the highest one asked for, and `ordered`
      says that every question so far was for a ledger at least as high as those before it. */
  datatype Tracker = Tracker(
    roots: map<U32, Digest>,
    leaves: Leaves,
    last: Option<U32>,
    first: U32,
    asked: Option<U32>,
    ordered: bool)

  ghost predicate RootsAgree(sha: Hash, chain: Chain, id: Option<Digest>, roots: map<U32, Digest>, first: U32, last: U32) {
    forall s :: s in roots ==> first <= s <= last && roots[s] == TreeRoot(sha, Replayed(sha, chain, id, first, s))
  }

  ghost predicate Consistent(sha: Hash, chain: Chain, id: Option<Digest>, t: Tracker) {
    match t.last
    case None => t.roots == map[] && (t.ordered ==> t.leaves == map[])
    case Some(last) =>
      && t.asked.Some? && last <= t.asked.value
      && (t.ordered ==>
            && t.first <= last && last in t.roots
            && CleanUpTo(sha, chain, id, t.first, last, t.asked.value, t.leaves)
            && RootsAgree(sha, chain, id, t.roots, t.first, last))
  }

  /** The bookkeeping of a question for ledger `s`. */
  function Questioned(t: Tracker, s: U32): Tracker {
    t.(asked := Some(if t.asked.Some? && t.asked.value > s then t.asked.value else s),
       ordered := t.ordered && (t.asked == None || t.asked.value <= s))
  }

  function Start(t: Tracker, s: U32): int {
    if t.last.Some? then t.last.value + 1 else s
  }

  /** The replay stopped after ledger `reached`. */
  function Interrupted(sha: Hash, chain: Chain, id: Option<Digest>, t: Tracker, s: U32, reached: int): Tracker {
    Questioned(t, s).(leaves := ApplyAll(sha, t.leaves, Writes(chain, id, Start(t, s), reached)))
  }

  /** The replay reached ledger `s`. */
  function Advanced(sha: Hash, chain: Chain, id: Option<Digest>, t: Tracker, s: U32): Tracker {
    var leaves := ApplyAll(sha, t.leaves, Writes(chain, id, Start(t, s), s));
    Questioned(t, s).(leaves := leaves, last := Some(s), first := if t.last.Some? then t.first else s,
                      roots := t.roots[s := TreeRoot(sha, leaves)])
  }

  /** An uncached ledger below the last one processed gets the current tree's root. */
  function Stale(sha: Hash, t: Tracker, s: U32): Tracker {
    Questioned(t, s).(roots := t.roots[s := TreeRoot(sha, t.leaves)])
  }

  /** What every question keeps and what its answer means. */
  ghost predicate Answers(sha: Hash, chain: Chain, id: Option<Digest>, t: Tracker, t': Tracker, s: U32, r: Option<Digest>) {
    && Consistent(sha, chain, id, t')
    // an answered root never changes
    && (forall k :: k in t.roots ==> k in t'.roots && t'.roots[k] == t.roots[k])
    && (r.Some? ==> s in t'.roots && r.value == t'.roots[s])
    // the replay starts at the first answered ledger
    && (t.last.Some? ==> t'.first == t.first)
    && (t.last == None && r.Some? ==> t'.first == s)
    // in order, the answer and the tree are those of the reference
    && (t'.ordered && r.Some? ==>
          && t'.first <= s && r.value == TreeRoot(sha, Replayed(sha, chain, id, t'.first, s))
          && t'.leaves == Replayed(sha, chain, id, t'.first, s))
  }

  lemma CachedAnswer(sha: Hash, chain: Chain, id: Option<Digest>, t: Tracker, s: U32)
    requires Consistent(sha, chain, id, t) && s in t.roots
    ensures Answers(sha, chain, id, t, Questioned(t, s), s, Some(t.roots[s]))
  {
    var t' := Questioned(t, s);
    if t'.ordered {
      var last: int := t.last.value;
      CompleteReplay(sha, chain, id, t.first, last, t.asked.value, s, last + 1, t.leaves,
                     ApplyAll(sha, t.leaves, Writes(chain, id, last + 1, s)));
    }
  }

  lemma StaleAnswer(sha: Hash, chain: Chain, id: Option<Digest>, t: Tracker, s: U32)
    requires Consistent(sha, chain, id, t) && s !in t.roots
    requires t.last.Some? && t.last.value >= s
    ensures !Stale(sha, t, s).ordered
    ensures Answers(sha, chain, id, t, Stale(sha, t, s), s, Some(TreeRoot(sha, t.leaves)))
  {
  }

  lemma InterruptedKeeps(sha: Hash, chain: Chain, id: Option<Digest>, t: Tracker, s: U32, reached: int)
    requires Consistent(sha, chain, id, t)
    requires t.last.Some? ==> t.last.value < s
    requires Start(t, s) - 1 <= reached < s
    ensures Consistent(sha, chain, id, Interrupted(sha, chain, id, t, s, reached))
  {
    var t' := Interrupted(sha, chain, id, t, s, reached);
    if t'.ordered && t.last.Some? {
      var last := t.last.value;
      PartialReplay(sha, chain, id, t.first, last, t.asked.value, s, t.leaves, reached);
      assert t'.leaves == ApplyAll(sha, t.leaves, Writes(chain, id, last + 1, reached));
      assert CleanUpTo(sha, chain, id, t'.first, last, t'.asked.value, t'.leaves);
    }
  }

  lemma InterruptedAnswer(sha: Hash, chain: Chain, id: Option<Digest>, t: Tracker, s: U32, reached: int)
    requires Consistent(sha, chain, id, t)
    requires t.last.Some? ==> t.last.value < s
    requires Start(t, s) - 1 <= reached < s
    ensures Answers(sha, chain, id, t, Interrupted(sha, chain, id, t, s, reached), s, None)
  {
    InterruptedKeeps(sha, chain, id, t, s, reached);
  }

  lemma FirstReplay(sha: Hash, chain: Chain, id: Option<Digest>, t: Tracker, s: U32, leaves: Leaves)
    requires Consistent(sha, chain, id, t) && t.ordered && t.last == None
    requires leaves == ApplyAll(sha, t.leaves, Writes(chain, id, Start(t, s), s))
    ensures leaves == Replayed(sha, chain, id, s, s)
  {
    assert t.leaves == map[];
  }

  lemma ResumedReplay(sha: Hash, chain: Chain, id: Option<Digest>, t: Tracker, last: U32, s: U32, leaves: Leaves)
    requires Consistent(sha, chain, id, t) && Questioned(t, s).ordered
    requires t.last == Some(last) && last < s
    requires leaves == ApplyAll(sha, t.leaves, Writes(chain, id, Start(t, s), s))
    ensures t.first <= s && leaves == Replayed(sha, chain, id, t.first, s)
  {
    CompleteReplay(sha, chain, id, t.first, last, t.asked.value, s, Start(t, s), t.leaves, leaves);
  }

  lemma ReplayedAnswers(sha: Hash, chain: Chain, id: Option<Digest>, t: Tracker, s: U32, first: U32, leaves: Leaves)
    requires Consistent(sha, chain, id, t)
    requires t.last.Some? ==> t.last.value < s
    requires s !in t.roots && first == (if t.last.Some? then t.first else s)
    requires leaves == ApplyAll(sha, t.leaves, Writes(chain, id, Start(t, s), s))
    requires Questioned(t, s).ordered ==> first <= s && leaves == Replayed(sha, chain, id, first, s)
    ensures Answers(sha, chain, id, t, Advanced(sha, chain, id, t, s), s, Some(TreeRoot(sha, leaves)))
  {
    var t' := Advanced(sha, chain, id, t, s);
    assert Consistent(sha, chain, id, t') by {
      if t'.ordered {
        assert CleanUpTo(sha, chain, id, first, s, s, leaves);
        assert RootsAgree(sha, chain, id, t'.roots, first, s);
      }
    }
  }

  lemma AdvancedAnswer(sha: Hash, chain: Chain, id: Option<Digest>, t: Tracker, s: U32)
    requires Consistent(sha, chain, id, t)
    requires t.last.Some? ==> t.last.value < s
    requires s !in t.roots
    ensures var t' := Advanced(sha, chain, id, t, s);
            Answers(sha, chain, id, t, t', s, Some(TreeRoot(sha, t'.leaves)))
  {
    var leaves := ApplyAll(sha, t.leaves, Writes(chain, id, Start(t, s), s));
    if t.last.Some? {
      if Questioned(t, s).ordered {
        ResumedReplay(sha, chain, id, t, t.last.value, s, leaves);
      }
      ReplayedAnswers(sha, chain, id, t, s, t.first, leaves);
    } else {
      if Questioned(t, s).ordered {
        FirstReplay(sha, chain, id, t, s, leaves);
      }
      ReplayedAnswers(sha, chain, id, t, s, s, leaves);
    }
  }

  // ---------------------------------------------------------------- one question

  /** A question for a ledger's root, and which ledgers could be fetched while it was answered. */
  datatype Question = Question(ledger: U32, available: U32 -> bool)

  /** The last ledger of an uninterrupted replay from `start` towards `upto`. */
  function Reach(available: U32 -> bool, start: int, upto: U32): (r: int)
    requires 0 <= start
    ensures start <= upto + 1 ==> start - 1 <= r <= upto
    decreases upto - start
  {
    if start > upto || !available(start) then start - 1 else Reach(available, start + 1, upto)
  }

  function Next(sha: Hash, chain: Chain, id: Option<Digest>, t: Tracker, q: Question): Tracker {
    var s := q.ledger;
    if s in t.roots then Questioned(t, s)
    else if t.last.Some? && t.last.value >= s then Stale(sha, t, s)
    else if Reach(q.available, Start(t, s), s) < s then Interrupted(sha, chain, id, t, s, Reach(q.available, Start(t, s), s))
    else Advanced(sha, chain, id, t, s)
  }

  /** The question fails exactly when a ledger it must replay cannot be fetched. */
  function Answer(sha: Hash, chain: Chain, id: Option<Digest>, t: Tracker, q: Question): Option<Digest> {
    var t' := Next(sha, chain, id, t, q);
    if q.ledger in t'.roots then Some(t'.roots[q.ledger]) else None
  }

  lemma NextAnswers(sha: Hash, chain: Chain, id: Option<Digest>, t: Tracker, q: Question)
    requires Consistent(sha, chain, id, t)
    ensures Answers(sha, chain, id, t, Next(sha, chain, id, t, q), q.ledger, Answer(sha, chain, id, t, q))
    ensures Next(sha, chain, id, t, q).ordered == Questioned(t, q.ledger).ordered
    ensures Next(sha, chain, id, t, q).asked == Questioned(t, q.ledger).asked
  {
    var s := q.ledger;
    if s in t.roots {
      CachedAnswer(sha, chain, id, t, s);
    } else if t.last.Some? && t.last.value >= s {
      StaleAnswer(sha, chain, id, t, s);
    } else if Reach(q.available, Start(t, s), s) < s {
      InterruptedAnswer(sha, chain, id, t, s, Reach(q.available, Start(t, s), s));
    } else {
      AdvancedAnswer(sha, chain, id, t, s);
    }
  }

  /** Applying one more ledger extends the replay by it. */
  lemma NextLedger(sha: Hash, chain: Chain, id: Option<Digest>, leaves: Leaves, start: int, s: U32)
    requires start <= s
    ensures ApplyAll(sha, ApplyAll(sha, leaves, Writes(chain, id, start, s - 1)), Effects(id, chain(s)))
         == ApplyAll(sha, leaves, Writes(chain, id, start, s))
  {
    ApplyAllConcat(sha, leaves, Writes(chain, id, start, s - 1), Effects(id, chain(s)));
  }

  /** Where a replay stops is where the first missing ledger is. */
  lemma {:induction false} ReachIs(available: U32 -> bool, start: int, upto: U32, reached: int)
    requires 0 <= start <= upto + 1 && start - 1 <= reached <= upto
    requires forall k: U32 :: start <= k <= reached ==> available(k)
    requires reached < upto ==> !available(reached + 1)
    ensures Reach(available, start, upto) == reached
    decreases reached - start
  {
    if start <= reached {
      ReachIs(available, start + 1, upto, reached);
    }
  }

  /** `root` is the reference root of ledger `s`, and `found` is the right answer for `key` there, which
      a wasm client that trusts `root` takes as proof of exactly that. */
  ghost predicate ProvesReference(sha: Hash, chain: Chain, id: Option<Digest>, first: U32, s: U32, root: Digest,
                                  key: Bytes, found: P.Lookup) {
    && root == TreeRoot(sha, Replayed(sha, chain, id, first, s))
    && P.RightAnswer(sha, LastWrite(sha, Writes(chain, id, first, s), Slot(sha, key)), found, key)
    && forall st, height, keyPath, value :: P.Trusts(st, height, root) ==>
         P.ConvincesExactly(sha, found, key, st, height, keyPath, value)
  }

  lemma ReferenceProof(sha: Hash, chain: Chain, id: Option<Digest>, first: U32, s: U32, key: Bytes)
    ensures var leaves := Replayed(sha, chain, id, first, s);
            ProvesReference(sha, chain, id, first, s, TreeRoot(sha, leaves), key, P.LookupPath(sha, leaves, key))
  {
    var ws := Writes(chain, id, first, s);
    P.LastWriteDecides(sha, ws, key);
    forall st, height, keyPath, value | P.Trusts(st, height, TreeRoot(sha, ApplyAll(sha, map[], ws)))
      ensures P.ConvincesExactly(sha, P.LookupPath(sha, ApplyAll(sha, map[], ws), key), key, st, height, keyPath, value)
    {
      P.AnswerConvincesExactly(sha, ApplyAll(sha, map[], ws), key, st, height, keyPath, value);
    }
  }

  /** In order, an answer comes with a proof from the tree it is the root of. */
  lemma AnswerProves(sha: Hash, chain: Chain, id: Option<Digest>, t: Tracker, q: Question, key: Bytes)
    requires Consistent(sha, chain, id, t) && Next(sha, chain, id, t, q).ordered && Answer(sha, chain, id, t, q).Some?
    ensures var t' := Next(sha, chain, id, t, q);
            ProvesReference(sha, chain, id, t'.first, q.ledger, Answer(sha, chain, id, t, q).value, key, P.LookupPath(sha, t'.leaves, key))
  {
    NextAnswers(sha, chain, id, t, q);
    ReferenceProof(sha, chain, id, Next(sha, chain, id, t, q).first, q.ledger, key);
  }

  // ---------------------------------------------------------------- the tracker object

  class State {
    const sha: Hash
    const id: Option<Digest>
    const chain: Chain
    const smt: Smt
    var roots: map<U32, Digest>
    var lastProcessed: Option<U32>
    ghost var first: U32
    ghost var asked: Option<U32>
    ghost var ordered: bool

    ghost function View(): Tracker
      reads this, smt
    {
      Tracker(roots, smt.leaves, lastProcessed, first, asked, ordered)
    }

    ghost predicate Valid()
      reads this, smt
    {
      smt.sha == sha && Consistent(sha, chain, id, View())
    }

    constructor (sha: Hash, id: Option<Digest>, chain: Chain)
      ensures Valid() && fresh(smt)
      ensures this.sha == sha && this.id == id && this.chain == chain
      ensures View() == Tracker(map[], map[], None, 0, None, true)
    {
      this.sha, this.id, this.chain := sha, id, chain;
      smt := new Smt(sha);
      roots, lastProcessed := map[], None;
      first, asked, ordered := 0, None, true;
    }

    method ApplyChange(c: Change)
      requires smt.sha == sha
      modifies smt
      ensures smt.leaves == match Effect(id, c) case Some(w) => Apply(sha, old(smt.leaves), w) case None => old(smt.leaves)
    {
      match c
      case Unrelated =>
      case Removed(contract, key) =>
        if Matches(id, contract) && V2Path(key).Some? {
          smt.Remove(V2Path(key).value);
        }
      case Created(contract, key, val) =>
        if Matches(id, contract) && V2Path(key).Some? && val.ScBytes? {
          smt.Insert(V2Path(key).value, val.bytes);
        }
      case Updated(contract, key, val) =>
        if Matches(id, contract) && V2Path(key).Some? && val.ScBytes? {
          smt.Insert(V2Path(key).value, val.bytes);
        }
    }

    /** Fetching or decoding the ledger can fail, and then nothing of it is applied. */
    method ApplyLedger(seqNo: U32, available: U32 -> bool) returns (ok: bool)
      requires smt.sha == sha
      modifies smt
      ensures ok == available(seqNo)
      ensures smt.leaves == if ok then ApplyAll(sha, old(smt.leaves), Effects(id, chain(seqNo))) else old(smt.leaves)
    {
      if !available(seqNo) {
        return false;
      }
      var changes := chain(seqNo);
      for k := 0 to |changes|
        invariant smt.leaves == ApplyAll(sha, old(smt.leaves), Effects(id, changes[..k]))
      {
        assert changes[..k + 1][..k] == changes[..k];
        ghost var before := Effects(id, changes[..k]);
        assert forall w :: (before + [w])[..|before|] == before;
        ApplyChange(changes[k]);
      }
      assert changes[..|changes|] == changes;
      ok := true;
    }

    /** Replays the ledgers `start` to `upto`, stopping at the first that is unavailable. */
    method ReplayRange(start: U32, upto: U32, available: U32 -> bool) returns (ok: bool, ghost reached: int)
      requires smt.sha == sha && start <= upto
      modifies smt
      ensures start - 1 <= reached <= upto && (ok <==> reached == upto)
      ensures reached == Reach(available, start, upto)
      ensures smt.leaves == ApplyAll(sha, old(smt.leaves), Writes(chain, id, start, reached))
    {
      reached := start - 1;
      for s: int := start to upto + 1
        invariant reached == s - 1
        invariant forall k: U32 :: start <= k < s ==> available(k)
        invariant smt.leaves == ApplyAll(sha, old(smt.leaves), Writes(chain, id, start, reached))
      {
        ok := ApplyLedger(s, available);
        if !ok {
          ReachIs(available, start, upto, reached);
          return;
        }
        NextLedger(sha, chain, id, old(smt.leaves), start, s);
        reached := s;
      }
      ReachIs(available, start, upto, upto);
      ok := true;
    }

    method RootAt(seqNo: U32, available: U32 -> bool) returns (r: Option<Digest>)
      requires Valid()
      modifies this, smt
      ensures View() == Next(sha, chain, id, old(View()), Question(seqNo, available))
      ensures r == Answer(sha, chain, id, old(View()), Question(seqNo, available))
      ensures Valid() && Answers(sha, chain, id, old(View()), View(), seqNo, r)
    {
      NextAnswers(sha, chain, id, View(), Question(seqNo, available));
      if seqNo in roots {
        ordered, asked := Questioned(View(), seqNo).ordered, Questioned(View(), seqNo).asked;
        return Some(roots[seqNo]);
      }
      r := ProcessThrough(seqNo, available);
    }

    method ProcessThrough(seqNo: U32, available: U32 -> bool) returns (r: Option<Digest>)
      requires Valid() && seqNo !in roots
      modifies this, smt
      ensures View() == Next(sha, chain, id, old(View()), Question(seqNo, available))
      ensures r == if seqNo in roots then Some(roots[seqNo]) else None
    {
      ghost var t := View();
      if lastProcessed.Some? && lastProcessed.value >= seqNo {
        var root := smt.Root();
        roots := roots[seqNo := root];
        ordered, asked := Questioned(t, seqNo).ordered, Questioned(t, seqNo).asked;
        assert View() == Stale(sha, t, seqNo);
        return Some(root);
      }
      r := Advance(seqNo, available);
    }

    /** Replays up to `seqNo` and records its root, or stops where a ledger is missing. */
    method Advance(seqNo: U32, available: U32 -> bool) returns (r: Option<Digest>)
      requires smt.sha == sha && seqNo !in roots && (lastProcessed.Some? ==> lastProcessed.value < seqNo)
      modifies this, smt
      ensures var t := old(View());
              var reached := Reach(available, Start(t, seqNo), seqNo);
              if reached < seqNo then View() == Interrupted(sha, chain, id, t, seqNo, reached) && r == None
              else View() == Advanced(sha, chain, id, t, seqNo) && r == Some(roots[seqNo])
    {
      ghost var t := View();
      var start := if lastProcessed.Some? then lastProcessed.value + 1 else seqNo;
      var ok, reached := ReplayRange(start, seqNo, available);
      if !ok {
        ordered, asked := Questioned(t, seqNo).ordered, Questioned(t, seqNo).asked;
        assert View() == Interrupted(sha, chain, id, t, seqNo, reached);
        return None;
      }
      if lastProcessed == None {
        first := seqNo;
      }
      lastProcessed := Some(seqNo);
      var root := smt.Root();
      roots := roots[seqNo := root];
      ordered, asked := Questioned(t, seqNo).ordered, Questioned(t, seqNo).asked;
      assert View() == Advanced(sha, chain, id, t, seqNo);
      r := Some(root);
    }

    /** The proof answered for a ledger comes from the reference tree of that ledger, and convinces a
        client that trusts the answered root of exactly what it says. */
    method ProofForPath(seqNo: U32, key: Bytes, available: U32 -> bool) returns (r: Option<P.Lookup>)
      requires Valid()
      modifies this, smt
      ensures Valid()
      ensures View() == Next(sha, chain, id, old(View()), Question(seqNo, available))
      ensures r.Some? ==> seqNo in roots && !r.value.Unavailable?
      ensures ordered && r.Some? ==> ProvesReference(sha, chain, id, first, seqNo, roots[seqNo], key, r.value)
    {
      ghost var t, q := View(), Question(seqNo, available);
      var root := RootAt(seqNo, available);
      if root == None {
        return None;
      }
      r := LookUp(key);
      if r.Some? && ordered {
        AnswerProves(sha, chain, id, t, q, key);
      }
    }

    /** Membership first, then non-membership, serialised with the side of each sibling; a slot taken
        by another key has neither. */
    method LookUp(key: Bytes) returns (r: Option<P.Lookup>)
      requires smt.sha == sha
      ensures r == match P.LookupPath(sha, smt.leaves, key) case Unavailable => None case found => Some(found)
    {
      var index := Slot(sha, key);
      var present := smt.GenerateMembershipProof(key);
      if present.Some? {
        var hash := present.value.valueHash;
        var e := W.BuildExistenceProofWithIndex(key, hash, present.value.siblings, index);
        return Some(P.Found(hash, W.MerkleProof([W.Exist(e)])));
      }
      var absent := smt.GenerateNonMembershipProof(key);
      if absent == None {
        return None;
      }
      var e := W.BuildExistenceProofWithIndex(key, [], absent.value.siblings, index);
      r := Some(P.Absent(W.MerkleProof([W.Nonexist(W.NonExistenceProof(key, Some(e), None))])));
    }
  }
}
