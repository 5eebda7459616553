/** The gateway's tree mirrors the contract data of the ledger. */
module LedgerMirror {
  import opened Prelude
  import opened Paths
  import opened MerkleTree
  import opened SmtStore
  import opened StateTracker
  import opened StoreProofs
  import opened TrackerRuns
  import P = ProofPipeline

  // ---------------------------------------------------------------- the ledger's own view

  /** Contract data entries, by contract and key. */
  type Entries = map<(Address, ScVal), ScVal>

  /** Created and updated entries hold their value, removed ones are gone. */
  function Change1(data: Entries, c: Change): Entries {
    match c
    case Created(contract, key, val) => data[(contract, key) := val]
    case Updated(contract, key, val) => data[(contract, key) := val]
    case Removed(contract, key) => data - {(contract, key)}
    case Unrelated => data
  }

  function Changed(data: Entries, cs: seq<Change>): Entries {
    if |cs| == 0 then data else Change1(Changed(data, cs[..|cs| - 1]), cs[|cs| - 1])
  }

  /** All changes of the ledgers `first` to `upto`, one after the other. */
  function ChangesOf(chain: Chain, first: int, upto: int): seq<Change>
    decreases upto - first
  {
    if upto < first then [] else ChangesOf(chain, first, upto - 1) + chain(upto)
  }

  function DataAfter(chain: Chain, first: int, upto: int): Entries {
    Changed(map[], ChangesOf(chain, first, upto))
  }

  /** The value of a byte key of the contract. */
  function EntryOf(data: Entries, id: Digest, key: Bytes): Option<ScVal> {
    if (Contract(id), ScBytes(key)) in data then Some(data[(Contract(id), ScBytes(key))]) else None
  }

  /** The contract writes byte strings under its provable keys. */
  ghost predicate ByteValued(id: Digest, cs: seq<Change>) {
    forall k :: 0 <= k < |cs| ==> WritesBytes(id, cs[k])
  }

  predicate WritesBytes(id: Digest, c: Change) {
    (c.Created? || c.Updated?) && c.contract == Contract(id) && c.key.ScBytes? && IsProvable(c.key.bytes) ==> c.val.ScBytes?
  }

  // ---------------------------------------------------------------- one change, many changes

  /** What the store of provable entries must hold for a key: its bytes, if there are any. */
  predicate Mirrors(store: map<Bytes, Bytes>, data: Entries, id: Digest, key: Bytes) {
    var entry := EntryOf(data, id, key);
    if IsProvable(key) && entry.Some? && entry.value.ScBytes? && entry.value.bytes != []
    then key in store && store[key] == entry.value.bytes
    else key !in store
  }

  /** Provable entries are byte strings. */
  predicate BytesOnly(data: Entries, id: Digest, key: Bytes) {
    IsProvable(key) && EntryOf(data, id, key).Some? ==> EntryOf(data, id, key).value.ScBytes?
  }

  function StoreChange(store: map<Bytes, Bytes>, w: Option<Write>): map<Bytes, Bytes> {
    match w
    case None => store
    case Some(w) => if w.value == [] then store - {w.key} else store[w.key := w.value]
  }

  lemma ChangeMirrors(store: map<Bytes, Bytes>, data: Entries, id: Digest, c: Change, key: Bytes)
    requires Mirrors(store, data, id, key) && BytesOnly(data, id, key) && WritesBytes(id, c)
    ensures Mirrors(StoreChange(store, Effect(Some(id), c)), Change1(data, c), id, key)
    ensures BytesOnly(Change1(data, c), id, key)
  {
  }

  lemma StoreAfterAppend(ws: seq<Write>, w: Write)
    ensures StoreAfter(ws + [w]) == StoreChange(StoreAfter(ws), Some(w))
  {
    assert (ws + [w])[..|ws|] == ws;
  }

  lemma {:induction false} ChangesMirror(id: Digest, cs: seq<Change>, key: Bytes)
    requires ByteValued(id, cs)
    ensures Mirrors(StoreAfter(Effects(Some(id), cs)), Changed(map[], cs), id, key)
    ensures BytesOnly(Changed(map[], cs), id, key)
  {
    if |cs| > 0 {
      var front, c := cs[..|cs| - 1], cs[|cs| - 1];
      ChangesMirror(id, front, key);
      var ws, w := Effects(Some(id), front), Effect(Some(id), c);
      assert WritesBytes(id, c);
      ChangeMirrors(StoreAfter(ws), Changed(map[], front), id, c, key);
      if w.Some? {
        StoreAfterAppend(ws, w.value);
      }
    }
  }

  lemma {:induction false} EffectsAppend(id: Option<Digest>, xs: seq<Change>, ys: seq<Change>)
    ensures Effects(id, xs + ys) == Effects(id, xs) + Effects(id, ys)
  {
    if |ys| == 0 {
      assert xs + ys == xs;
    } else {
      assert (xs + ys)[..|xs + ys| - 1] == xs + ys[..|ys| - 1];
      EffectsAppend(id, xs, ys[..|ys| - 1]);
    }
  }

  /** The replayed writes are the effects of all changes, in order. */
  lemma {:induction false} WritesAreEffects(chain: Chain, id: Option<Digest>, first: int, upto: int)
    ensures Writes(chain, id, first, upto) == Effects(id, ChangesOf(chain, first, upto))
    decreases upto - first
  {
    if first <= upto {
      WritesAreEffects(chain, id, first, upto - 1);
      EffectsAppend(id, ChangesOf(chain, first, upto - 1), chain(upto));
    }
  }

  /** Without a contract id the tracker follows every contract, each as if it were the one; entries of accounts
      are no contract data. */
  lemma UnfilteredFollowsAll(id: Digest, c: Change)
    ensures !c.Unrelated? && c.contract == Contract(id) ==> Effect(None, c) == Effect(Some(id), c)
    ensures !c.Unrelated? && c.contract == Account ==> Effect(None, c) == None
    ensures !c.Unrelated? && c.contract != Contract(id) ==> Effect(Some(id), c) == None
  {
  }

  // ---------------------------------------------------------------- the mirror

  /** For every ledger history of a contract that writes byte strings: the store that the gateway folds into its
      tree holds exactly the contract's provable entries with non-empty values, each under its key. */
  lemma StoreMirrorsLedger(chain: Chain, id: Digest, first: int, upto: int, key: Bytes)
    requires ByteValued(id, ChangesOf(chain, first, upto))
    ensures Mirrors(StoreAfter(Writes(chain, Some(id), first, upto)), DataAfter(chain, first, upto), id, key)
  {
    WritesAreEffects(chain, Some(id), first, upto);
    ChangesMirror(id, ChangesOf(chain, first, upto), key);
  }

  /** The hypothesis is needed: an update to a value that is not a byte string is not applied, and the store keeps
      the bytes that the ledger no longer holds. */
  lemma OtherValuesAreIgnored(id: Digest, key: Bytes, bytes: Bytes)
    requires IsProvable(key) && bytes != []
    ensures var cs := [Created(Contract(id), ScBytes(key), ScBytes(bytes)), Updated(Contract(id), ScBytes(key), ScOther)];
            && EntryOf(Changed(map[], cs), id, key) == Some(ScOther)
            && StoreAfter(Effects(Some(id), cs)) == map[key := bytes]
  {
    var a, b := Created(Contract(id), ScBytes(key), ScBytes(bytes)), Updated(Contract(id), ScBytes(key), ScOther);
    var w := Write(key, bytes);
    TwoChanges(Some(id), a, b, w);
    assert [] + [w] == [w];
    StoreAfterAppend([], w);
  }

  lemma TwoChanges(id: Option<Digest>, a: Change, b: Change, w: Write)
    requires Effect(id, a) == Some(w) && Effect(id, b) == None
    ensures Effects(id, [a, b]) == [w]
    ensures Changed(map[], [a, b]) == Change1(Change1(map[], a), b)
  {
    assert [a, b][..1] == [a] && [a][..0] == [];
    assert Effects(id, [a]) == [w];
    assert Changed(map[], [a]) == Change1(map[], a);
  }

  /** Another key of the writes falls into the same slot. */
  ghost predicate SharesSlot(sha: Hash, ws: seq<Write>, key: Bytes) {
    exists w :: w in ws && w.key != key && Slot(sha, w.key) == Slot(sha, key)
  }

  /** The tree answers for a key as the store says, unless another written key shares its slot. */
  lemma LookupFollowsStore(sha: Hash, ws: seq<Write>, key: Bytes)
    ensures var found := P.LookupPath(sha, ApplyAll(sha, map[], ws), key);
            || SharesSlot(sha, ws, key)
            || (if key in StoreAfter(ws) then found.Found? && found.valueHash == sha(StoreAfter(ws)[key]) else found.Absent?)
  {
    P.LastWriteDecides(sha, ws, key);
    var w := LastWrite(sha, ws, Slot(sha, key));
    if w == None {
      UnwrittenIsAbsent(sha, ws, key);
    } else {
      LastWriteOccurs(sha, ws, Slot(sha, key));
      if w.value.key == key {
        LastWriteIsStored(sha, ws, key);
      }
    }
  }

  /** What the gateway must answer for a provable key, from the ledger alone. */
  ghost predicate AnswersLedger(sha: Hash, data: Entries, id: Digest, key: Bytes, found: P.Lookup) {
    var entry := EntryOf(data, id, key);
    if entry.Some? && entry.value.ScBytes? && entry.value.bytes != []
    then found.Found? && found.valueHash == sha(entry.value.bytes)
    else found.Absent?
  }

  /** Over every non-decreasing sequence of questions: the answer for a provable key is a membership proof of the
      value that the contract's data holds at that ledger, or a proof of absence exactly when it holds none;
      unless another key written since the first ledger shares its slot. */
  lemma AnswersMirrorLedger(sha: Hash, chain: Chain, id: Digest, qs: seq<Question>, k: nat, key: Bytes)
    requires NonDecreasing(qs) && k < |qs| && AnswerTo(sha, chain, Some(id), qs, k).Some? && IsProvable(key)
    requires ByteValued(id, ChangesOf(chain, Asked(sha, chain, Some(id), qs[..k + 1]).first, qs[k].ledger))
    ensures var first := Asked(sha, chain, Some(id), qs[..k + 1]).first;
            || AnswersLedger(sha, DataAfter(chain, first, qs[k].ledger), id, key, ProofTo(sha, chain, Some(id), qs, k, key))
            || SharesSlot(sha, Writes(chain, Some(id), first, qs[k].ledger), key)
  {
    var first := Asked(sha, chain, Some(id), qs[..k + 1]).first;
    ProofsComeFromReplay(sha, chain, Some(id), qs, k, key);
    StoreMirrorsLedger(chain, id, first, qs[k].ledger, key);
    LookupFollowsStore(sha, Writes(chain, Some(id), first, qs[k].ledger), key);
  }

  lemma ProofsComeFromReplay(sha: Hash, chain: Chain, id: Option<Digest>, qs: seq<Question>, k: nat, key: Bytes)
    requires NonDecreasing(qs) && k < |qs| && AnswerTo(sha, chain, id, qs, k).Some?
    ensures var first := Asked(sha, chain, id, qs[..k + 1]).first;
            ProofTo(sha, chain, id, qs, k, key) == P.LookupPath(sha, Replayed(sha, chain, id, first, qs[k].ledger), key)
  {
    var upto := qs[..k + 1];
    assert upto[..k] == qs[..k] && upto[k] == qs[k];
    AnswersStand(sha, chain, id, qs[..k]);
    AnswersStand(sha, chain, id, upto);
    var t := Asked(sha, chain, id, qs[..k]);
    assert Asked(sha, chain, id, upto) == Next(sha, chain, id, t, qs[k]);
    NextAnswers(sha, chain, id, t, qs[k]);
  }
}
