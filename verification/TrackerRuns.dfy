/** Whole sequences of questions to the gateway's state tracker. */
module TrackerRuns {
  import opened Prelude
  import opened MerkleTree
  import opened SmtStore
  import opened StateTracker
  import P = ProofPipeline

  const FRESH := Tracker(map[], map[], None, 0, None, true)

  function Asked(sha: Hash, chain: Chain, id: Option<Digest>, qs: seq<Question>): Tracker {
    if |qs| == 0 then FRESH else Next(sha, chain, id, Asked(sha, chain, id, qs[..|qs| - 1]), qs[|qs| - 1])
  }

  function AnswerTo(sha: Hash, chain: Chain, id: Option<Digest>, qs: seq<Question>, k: nat): Option<Digest>
    requires k < |qs|
  {
    Answer(sha, chain, id, Asked(sha, chain, id, qs[..k]), qs[k])
  }

  predicate NonDecreasing(qs: seq<Question>) {
    forall i, j :: 0 <= i < j < |qs| ==> qs[i].ledger <= qs[j].ledger
  }

  /** Every answer given so far is still what the tracker would answer. */
  ghost predicate Remembered(sha: Hash, chain: Chain, id: Option<Digest>, qs: seq<Question>, t: Tracker) {
    forall k :: 0 <= k < |qs| && AnswerTo(sha, chain, id, qs, k).Some? ==>
      qs[k].ledger in t.roots && AnswerTo(sha, chain, id, qs, k).value == t.roots[qs[k].ledger]
  }

  lemma {:induction false} AnswersStand(sha: Hash, chain: Chain, id: Option<Digest>, qs: seq<Question>)
    requires NonDecreasing(qs)
    ensures var t := Asked(sha, chain, id, qs);
            && Consistent(sha, chain, id, t) && t.ordered
            && (if |qs| == 0 then t.asked == None else t.asked == Some(qs[|qs| - 1].ledger))
            && Remembered(sha, chain, id, qs, t)
  {
    if |qs| > 0 {
      var front, q := qs[..|qs| - 1], qs[|qs| - 1];
      var t, t' := Asked(sha, chain, id, front), Asked(sha, chain, id, qs);
      AnswersStand(sha, chain, id, front);
      NextAnswers(sha, chain, id, t, q);
      forall k | 0 <= k < |qs| && AnswerTo(sha, chain, id, qs, k).Some?
        ensures qs[k].ledger in t'.roots && AnswerTo(sha, chain, id, qs, k).value == t'.roots[qs[k].ledger]
      {
        if k < |front| {
          assert qs[..k] == front[..k];
          assert AnswerTo(sha, chain, id, qs, k) == AnswerTo(sha, chain, id, front, k);
        }
      }
    }
  }

  /** Over every non-decreasing sequence of questions, with failed ones retried or not: every root
      ever answered is the root of folding all changes from one first ledger, the same for all of
      them, up to the ledger asked for; so two answers for one ledger agree, and interrupted replays
      leave no trace in any answer. */
  lemma OrderedAnswersAreReplays(sha: Hash, chain: Chain, id: Option<Digest>, qs: seq<Question>, k: nat)
    requires NonDecreasing(qs) && k < |qs| && AnswerTo(sha, chain, id, qs, k).Some?
    ensures var first := Asked(sha, chain, id, qs).first;
            && first <= qs[k].ledger
            && AnswerTo(sha, chain, id, qs, k).value == TreeRoot(sha, Replayed(sha, chain, id, first, qs[k].ledger))
  {
    AnswersStand(sha, chain, id, qs);
    var t := Asked(sha, chain, id, qs);
    assert t.last.Some?;
    assert RootsAgree(sha, chain, id, t.roots, t.first, t.last.value);
  }

  /** What the tracker answers for a key right after question `k`. */
  function ProofTo(sha: Hash, chain: Chain, id: Option<Digest>, qs: seq<Question>, k: nat, key: Bytes): P.Lookup
    requires k < |qs|
  {
    P.LookupPath(sha, Asked(sha, chain, id, qs[..k + 1]).leaves, key)
  }

  /** Over every non-decreasing sequence of questions, the proof given with an answered root is the right
      answer for the key at that ledger, and verifies against that root for exactly what it says. */
  lemma OrderedProofsConvince(sha: Hash, chain: Chain, id: Option<Digest>, qs: seq<Question>, k: nat, key: Bytes)
    requires NonDecreasing(qs) && k < |qs| && AnswerTo(sha, chain, id, qs, k).Some?
    ensures ProvesReference(sha, chain, id, Asked(sha, chain, id, qs[..k + 1]).first, qs[k].ledger,
                            AnswerTo(sha, chain, id, qs, k).value, key, ProofTo(sha, chain, id, qs, k, key))
  {
    var upto := qs[..k + 1];
    assert upto[..k] == qs[..k] && upto[k] == qs[k];
    var t := Asked(sha, chain, id, qs[..k]);
    AnswersStand(sha, chain, id, qs[..k]);
    AnswersStand(sha, chain, id, upto);
    assert Asked(sha, chain, id, upto) == Next(sha, chain, id, t, qs[k]);
    AnswerProves(sha, chain, id, t, qs[k], key);
  }

  lemma EarlierAnswer(sha: Hash, chain: Chain, id: Option<Digest>, qs: seq<Question>, j: nat)
    requires j + 1 < |qs|
    ensures AnswerTo(sha, chain, id, qs[..|qs| - 1], j) == AnswerTo(sha, chain, id, qs, j)
  {
    assert qs[..|qs| - 1][..j] == qs[..j];
  }

  /** The one first ledger is that of the first question that was answered. */
  lemma {:induction false} FirstAnsweredStarts(sha: Hash, chain: Chain, id: Option<Digest>, qs: seq<Question>, k: nat)
    requires NonDecreasing(qs) && k < |qs| && AnswerTo(sha, chain, id, qs, k).Some?
    requires forall j :: 0 <= j < k ==> AnswerTo(sha, chain, id, qs, j) == None
    ensures Asked(sha, chain, id, qs).first == qs[k].ledger
  {
    var front := qs[..|qs| - 1];
    forall j | 0 <= j < k ensures j < |front| && AnswerTo(sha, chain, id, front, j) == None {
      EarlierAnswer(sha, chain, id, qs, j);
    }
    if k < |front| {
      EarlierAnswer(sha, chain, id, qs, k);
      FirstAnsweredStarts(sha, chain, id, front, k);
      FirstStands(sha, chain, id, qs, k);
    } else {
      FirstAnsweredNow(sha, chain, id, qs);
    }
  }

  lemma FirstAnsweredNow(sha: Hash, chain: Chain, id: Option<Digest>, qs: seq<Question>)
    requires NonDecreasing(qs) && |qs| > 0 && AnswerTo(sha, chain, id, qs, |qs| - 1).Some?
    requires var front := qs[..|qs| - 1];
             forall j :: 0 <= j < |front| ==> AnswerTo(sha, chain, id, front, j) == None
    ensures Asked(sha, chain, id, qs).first == qs[|qs| - 1].ledger
  {
    var front := qs[..|qs| - 1];
    NothingAnswered(sha, chain, id, front);
    AnswersStand(sha, chain, id, front);
    NextAnswers(sha, chain, id, Asked(sha, chain, id, front), qs[|qs| - 1]);
  }

  lemma FirstStands(sha: Hash, chain: Chain, id: Option<Digest>, qs: seq<Question>, k: nat)
    requires NonDecreasing(qs) && k + 1 < |qs| && AnswerTo(sha, chain, id, qs[..|qs| - 1], k).Some?
    ensures Asked(sha, chain, id, qs).first == Asked(sha, chain, id, qs[..|qs| - 1]).first
  {
    var front := qs[..|qs| - 1];
    AnswersStand(sha, chain, id, front);
    NextAnswers(sha, chain, id, Asked(sha, chain, id, front), qs[|qs| - 1]);
  }

  lemma {:induction false} NothingAnswered(sha: Hash, chain: Chain, id: Option<Digest>, qs: seq<Question>)
    requires NonDecreasing(qs)
    requires forall j :: 0 <= j < |qs| ==> AnswerTo(sha, chain, id, qs, j) == None
    ensures Asked(sha, chain, id, qs).last == None
  {
    if |qs| > 0 {
      var front := qs[..|qs| - 1];
      forall j | 0 <= j < |front| ensures AnswerTo(sha, chain, id, front, j) == None {
        EarlierAnswer(sha, chain, id, qs, j);
      }
      NothingAnswered(sha, chain, id, front);
      assert AnswerTo(sha, chain, id, qs, |front|) == None;
    }
  }
}
