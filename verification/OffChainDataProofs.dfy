/** Crashes cost duplicates, never gaps, and duplicates do not change what is replayed. */
module OffChainDataProofs {
  import opened Wrappers
  import opened OffChainData

  // ---- The reference log ----

  /** One entry for each valid transaction that writes something. */
  function Entries(txs: seq<Transaction>): seq<seq<Write>> {
    if txs == [] then []
    else
      var n := |txs| - 1;
      Entries(txs[..n]) + if txs[n].valid && Writes(txs[n]) != [] then [Writes(txs[n])] else []
  }

  function Reference(chain: seq<Block>): seq<seq<Write>> {
    if chain == [] then []
    else
      var n := |chain| - 1;
      Reference(chain[..n]) + Entries(chain[n].transactions)
  }

  /** The entries before transaction `i` of block `n`. */
  function Done(chain: seq<Block>, n: nat, i: nat): seq<seq<Write>>
    requires n <= |chain| && (n < |chain| ==> i <= |chain[n].transactions|)
  {
    Reference(chain[..n]) + if n < |chain| then Entries(chain[n].transactions[..i]) else []
  }

  /** `log` is `reference` with some entries repeated on the spot. */
  predicate Stutters(log: seq<seq<Write>>, reference: seq<seq<Write>>) {
    if log == [] then reference == []
    else
      var n := |log| - 1;
      && reference != [] && log[n] == reference[|reference| - 1]
      && (Stutters(log[..n], reference[..|reference| - 1]) || Stutters(log[..n], reference))
  }

  lemma {:induction false} EntriesOfConcat(a: seq<Transaction>, b: seq<Transaction>)
    ensures Entries(a + b) == Entries(a) + Entries(b)
  {
    if b == [] {
      assert a + b == a;
    } else {
      assert (a + b)[..|a + b| - 1] == a + b[..|b| - 1];
      EntriesOfConcat(a, b[..|b| - 1]);
    }
  }

  lemma {:induction false} TakeThenDrop<T>(a: seq<T>, i: nat, k: nat)
    requires i + k <= |a|
    ensures a[..i + k] == a[..i] + a[i..][..k] && a == a[..i] + a[i..] && a[..|a|] == a
    ensures i + k == |a| ==> a[i..][..k] == a[i..]
  {
  }

  lemma {:induction false} EntriesSplit(txs: seq<Transaction>, i: nat)
    requires i <= |txs|
    ensures Entries(txs) == Entries(txs[..i]) + Entries(txs[i..])
  {
    TakeThenDrop(txs, i, 0);
    EntriesOfConcat(txs[..i], txs[i..]);
  }

  lemma {:induction false} ReferenceGrows(chain: seq<Block>, n: nat)
    requires n <= |chain|
    ensures Reference(chain[..n]) <= Reference(chain)
  {
    if n == |chain| {
      assert chain[..n] == chain;
    } else {
      var shorter := chain[..|chain| - 1];
      ReferenceGrows(shorter, n);
      assert shorter[..n] == chain[..n];
      assert Reference(chain) == Reference(shorter) + Entries(chain[|chain| - 1].transactions);
    }
  }

  lemma {:induction false} DoneStep(chain: seq<Block>, n: nat)
    requires n < |chain|
    ensures Done(chain, n + 1, 0) == Done(chain, n, |chain[n].transactions|)
    ensures Done(chain, n + 1, 0) == Reference(chain[..n + 1])
  {
    assert chain[..n + 1][..n] == chain[..n];
    var txs := chain[n].transactions;
    assert txs[..|txs|] == txs;
  }

  lemma {:induction false} PrefixOfSum(a: seq<seq<Write>>, b: seq<seq<Write>>, c: seq<seq<Write>>)
    requires b <= c
    ensures a + b <= a + c
  {
  }

  lemma {:induction false} DoneIsPrefix(chain: seq<Block>, n: nat, i: nat)
    requires n < |chain| && i <= |chain[n].transactions|
    ensures Done(chain, n, i) <= Reference(chain)
    ensures Done(chain, n, i) <= Done(chain, n + 1, 0)
    ensures Done(chain, n + 1, 0) == Done(chain, n, |chain[n].transactions|)
  {
    var txs := chain[n].transactions;
    DoneStep(chain, n);
    EntriesPrefix(txs, i);
    assert txs[..|txs|] == txs;
    PrefixOfSum(Reference(chain[..n]), Entries(txs[..i]), Entries(txs));
    ReferenceGrows(chain, n + 1);
  }

  // ---- Resuming ----

  /** Resuming after transaction `i` delivers exactly what follows it, provided its id is
      not empty and not repeated later in the block, and only then. */
  lemma {:induction false} ResumesExactly(txs: seq<Transaction>, i: nat)
    requires i < |txs|
    ensures NewTransactions(txs, txs[i].id) == Some(txs[i + 1..]) <==>
            txs[i].id != "" && forall k :: i < k < |txs| ==> txs[k].id != txs[i].id
  {
    LastIndexInRange(txs, txs[i].id);
    if txs[i].id != "" {
      var last := LastIndex(txs, txs[i].id).value;
      assert |txs[last + 1..]| == |txs[i + 1..]| <==> last == i;
    }
  }

  /** In any case: all transactions when no id is checkpointed, an error exactly when the id
      is not in the block, and else what follows its last occurrence. */
  lemma {:induction false} ResumesAnywhere(txs: seq<Transaction>, id: string)
    ensures id == "" ==> NewTransactions(txs, id) == Some(txs)
    ensures NewTransactions(txs, id) == None <==> id != "" && forall k :: 0 <= k < |txs| ==> txs[k].id != id
    ensures forall i :: 0 <= i < |txs| && txs[i].id == id != "" && (forall k :: i < k < |txs| ==> txs[k].id != id) ==>
      NewTransactions(txs, id) == Some(txs[i + 1..])
  {
    LastIndexInRange(txs, id);
  }

  /** Each valid transaction of the block can be resumed after. */
  predicate Resumable(txs: seq<Transaction>) {
    forall i :: 0 <= i < |txs| && txs[i].valid ==>
      && txs[i].id != ""
      && forall k :: i < k < |txs| ==> txs[k].id != txs[i].id
  }

  predicate WellFormed(chain: seq<Block>) {
    forall n :: 0 <= n < |chain| ==> chain[n].number == n && Resumable(chain[n].transactions)
  }

  /** The checkpoint names the position before transaction `i` of block `number`. */
  predicate PointsTo(disk: Disk, number: nat, txs: seq<Transaction>, i: nat) {
    && disk.blockNumber == number && i <= |txs|
    && if i == 0 then disk.transactionId == "" else txs[i - 1].valid && disk.transactionId == txs[i - 1].id
  }

  lemma {:induction false} NewFromCheckpoint(disk: Disk, number: nat, txs: seq<Transaction>, i: nat)
    requires Resumable(txs) && PointsTo(disk, number, txs, i)
    ensures NewTransactions(txs, disk.transactionId) == Some(txs[i..])
  {
    if i == 0 {
      assert txs[0..] == txs;
    } else {
      ResumesExactly(txs, i - 1);
    }
  }

  // ---- The log under repeats ----

  /** The log, repeats aside, is the first `r` entries, or one entry more. */
  ghost predicate Covers(log: seq<seq<Write>>, reference: seq<seq<Write>>, r: nat) {
    r <= |reference| &&
    (Stutters(log, reference[..r]) || (r < |reference| && Stutters(log, reference[..r + 1])))
  }

  lemma {:induction false} StuttersGrow(log: seq<seq<Write>>, reference: seq<seq<Write>>, e: seq<Write>)
    requires Stutters(log, reference)
    ensures Stutters(log + [e], reference + [e])
    ensures reference != [] && reference[|reference| - 1] == e ==> Stutters(log + [e], reference)
  {
    assert (log + [e])[..|log|] == log && (reference + [e])[..|reference|] == reference;
  }

  /** Appending the next entry: the log then covers it, whether or not it already did. */
  lemma {:induction false} AppendCovers(log: seq<seq<Write>>, reference: seq<seq<Write>>, r: nat)
    requires r < |reference| && Covers(log, reference, r)
    ensures Covers(log + [reference[r]], reference, r) && Covers(log + [reference[r]], reference, r + 1)
  {
    assert reference[..r] + [reference[r]] == reference[..r + 1];
    if Stutters(log, reference[..r]) {
      StuttersGrow(log, reference[..r], reference[r]);
    } else {
      StuttersGrow(log, reference[..r + 1], reference[r]);
    }
  }

  lemma {:induction false} StuttersAtLeast(log: seq<seq<Write>>, reference: seq<seq<Write>>)
    requires Stutters(log, reference)
    ensures |log| >= |reference|
    ensures |log| == |reference| ==> log == reference
  {
    if log != [] {
      var n, m := |log| - 1, |reference| - 1;
      if Stutters(log[..n], reference[..m]) {
        StuttersAtLeast(log[..n], reference[..m]);
        assert log == log[..n] + [log[n]] && reference == reference[..m] + [reference[m]];
      } else {
        StuttersAtLeast(log[..n], reference);
      }
    }
  }

  // ---- One process ----

  /** Entries that sit in the reference from `r` on. */
  predicate Sits(reference: seq<seq<Write>>, r: nat, part: seq<seq<Write>>) {
    r + |part| <= |reference| && reference[r..r + |part|] == part
  }

  lemma {:induction false} SitsSplit(reference: seq<seq<Write>>, r: nat, a: seq<seq<Write>>, b: seq<seq<Write>>)
    requires Sits(reference, r, a + b)
    ensures Sits(reference, r, a) && Sits(reference, r + |a|, b)
  {
    assert reference[r..r + |a + b|][..|a|] == reference[r..r + |a|];
    assert reference[r..r + |a + b|][|a|..] == reference[r + |a|..r + |a| + |b|];
  }

  lemma {:induction false} EntriesPrefix(txs: seq<Transaction>, k: nat)
    requires k <= |txs|
    ensures Entries(txs[..k]) <= Entries(txs)
  {
    EntriesSplit(txs, k);
  }

  /** How the store grows over a stretch of processing that moves the checkpoint from entry
      `r` to `r'`: by these entries, and if it was killed perhaps by one more. */
  predicate Grown(reference: seq<seq<Write>>, log: seq<seq<Write>>, r: nat, log': seq<seq<Write>>, r': nat,
                  killed: bool) {
    && r <= r' <= |reference|
    && (|| log' == log + reference[r..r']
        || (killed && r' < |reference| && log' == log + reference[r..r' + 1]))
  }

  /** And how the transaction count follows. */
  predicate Counted(limit: nat, s: State, o: Outcome, entries: int, more: bool) {
    && o.stop != Some(CheckpointNotFound)
    && (o.stop.None? ==>
          && o.state.transactionCount == s.transactionCount + entries
          && (limit > 0 ==> o.state.transactionCount <= limit))
    && (o.stop == Some(SimulatedFailure) ==> 0 < limit == s.transactionCount + entries && more)
  }

  /** A stretch of processing, the checkpoint vouching for `r` entries before and `r'` after. */
  predicate Ran(limit: nat, reference: seq<seq<Write>>, s: State, r: nat, o: Outcome, r': nat) {
    && Grown(reference, s.disk.log, r, o.state.disk.log, r', o.stop == Some(Killed))
    && Counted(limit, s, o, r' - r, r' < |reference|)
  }

  lemma {:induction false} Joined(reference: seq<seq<Write>>, r: nat, m: nat, r': nat)
    requires r <= m <= r' <= |reference|
    ensures reference[r..m] + reference[m..r'] == reference[r..r']
  {
  }

  lemma {:induction false} GrownFurther(reference: seq<seq<Write>>, log: seq<seq<Write>>, r: nat,
                                        log': seq<seq<Write>>, m: nat, log'': seq<seq<Write>>, r': nat, killed: bool)
    requires Grown(reference, log, r, log', m, false) && Grown(reference, log', m, log'', r', killed)
    ensures Grown(reference, log, r, log'', r', killed)
  {
    Joined(reference, r, m, r');
    assert log + reference[r..m] + reference[m..r'] == log + (reference[r..m] + reference[m..r']);
    if killed && r' < |reference| {
      Joined(reference, r, m, r' + 1);
      assert log + reference[r..m] + reference[m..r' + 1] == log + (reference[r..m] + reference[m..r' + 1]);
    }
  }

  lemma {:induction false} RanFurther(limit: nat, reference: seq<seq<Write>>, s: State, r: nat, o: Outcome, m: nat,
                                      o': Outcome, r': nat)
    requires Ran(limit, reference, s, r, o, m) && o.stop.None? && Ran(limit, reference, o.state, m, o', r')
    ensures Ran(limit, reference, s, r, o', r')
  {
    GrownFurther(reference, s.disk.log, r, o.state.disk.log, m, o'.state.disk.log, r', o'.stop == Some(Killed));
  }

  lemma {:induction false} GrownBy(reference: seq<seq<Write>>, log: seq<seq<Write>>, r: nat, saved: seq<seq<Write>>,
                                   stray: seq<seq<Write>>, log': seq<seq<Write>>, r': nat, killed: bool)
    requires Sits(reference, r, saved) && r' == r + |saved| && log' == log + saved + stray
    requires stray != [] ==> killed && r' < |reference| && stray == [reference[r']]
    ensures Grown(reference, log, r, log', r', killed)
  {
    if stray == [] {
      assert log + saved + stray == log + saved;
    } else {
      assert saved + stray == reference[r..r' + 1];
      assert log + saved + stray == log + (saved + stray);
    }
  }

  // ---- A list of valid transactions ----

  /** The entries of one transaction: one, or none. */
  function EntryOf(tx: Transaction): seq<seq<Write>> {
    if tx.valid && Writes(tx) != [] then [Writes(tx)] else []
  }

  lemma {:induction false} EntriesOfOne(tx: Transaction)
    ensures Entries([tx]) == EntryOf(tx)
  {
    assert [tx][..0] == [];
  }

  lemma {:induction false} EntriesHead(txs: seq<Transaction>)
    requires txs != []
    ensures Entries(txs) == EntryOf(txs[0]) + Entries(txs[1..])
  {
    assert txs == [txs[0]] + txs[1..];
    EntriesOfConcat([txs[0]], txs[1..]);
    EntriesOfOne(txs[0]);
  }

  lemma {:induction false} FirstOfNext(reference: seq<seq<Write>>, r: nat, a: seq<seq<Write>>)
    requires Sits(reference, r, a) && |a| == 1
    ensures r < |reference| && [reference[r]] == a
  {
    assert reference[r..r + 1][0] == reference[r];
  }

  lemma {:induction false} NextHead(reference: seq<seq<Write>>, r: nat, txs: seq<Transaction>)
    requires txs != [] && Sits(reference, r, Entries(txs)) && EntryOf(txs[0]) != []
    ensures r < |reference| && [reference[r]] == EntryOf(txs[0])
  {
    EntriesHead(txs);
    SitsSplit(reference, r, EntryOf(txs[0]), Entries(txs[1..]));
    FirstOfNext(reference, r, EntryOf(txs[0]));
  }

  /** How many of a list's transactions get saved. */
  function Saved(limit: nat, s: State, number: nat, txs: seq<Transaction>): nat
    decreases |txs|
  {
    if txs == [] then 0
    else
      var o := ProcessAndSave(limit, s, number, txs[0]);
      if o.stop.Some? then 0 else 1 + Saved(limit, o.state, number, txs[1..])
  }

  /** The entries that get stored and checkpointed. */
  function SavedLog(limit: nat, s: State, number: nat, txs: seq<Transaction>): seq<seq<Write>>
    decreases |txs|
  {
    if txs == [] then []
    else
      var o := ProcessAndSave(limit, s, number, txs[0]);
      if o.stop.Some? then [] else EntryOf(txs[0]) + SavedLog(limit, o.state, number, txs[1..])
  }

  /** The entry that gets stored but, the process being killed, not checkpointed. */
  function Stray(limit: nat, s: State, number: nat, txs: seq<Transaction>): seq<seq<Write>>
    decreases |txs|
  {
    if txs == [] then []
    else
      var o := ProcessAndSave(limit, s, number, txs[0]);
      if o.stop.None? then Stray(limit, o.state, number, txs[1..])
      else if |o.state.disk.log| > |s.disk.log| then EntryOf(txs[0])
      else []
  }

  lemma {:induction false} OneAfter(limit: nat, s: State, number: nat, tx: Transaction, o: Outcome)
    requires tx.valid && o == ProcessAndSave(limit, s, number, tx)
    ensures o.state.disk.log == s.disk.log || o.state.disk.log == s.disk.log + EntryOf(tx)
    ensures o.stop.None? ==> o.state.disk.log == s.disk.log + EntryOf(tx)
    ensures |o.state.disk.log| > |s.disk.log| ==> o.state.disk.log == s.disk.log + EntryOf(tx) && |EntryOf(tx)| == 1
    ensures o.stop.Some? && |o.state.disk.log| > |s.disk.log| ==> o.stop == Some(Killed)
  {
    assert s.disk.log + [] == s.disk.log;
  }

  lemma {:induction false} Shift(a: seq<seq<Write>>, b: seq<seq<Write>>, c: seq<seq<Write>>, d: seq<seq<Write>>)
    ensures (a + b) + c + d == a + (b + c) + d
    ensures a + [] + [] == a && a + [] + b == a + b
  {
  }

  /** The store grows by what was saved and the stray entry. */
  lemma {:induction false} LogAfter(limit: nat, s: State, number: nat, txs: seq<Transaction>)
    requires AllValid(txs)
    ensures ProcessValid(limit, s, number, txs).state.disk.log
         == s.disk.log + SavedLog(limit, s, number, txs) + Stray(limit, s, number, txs)
    decreases |txs|
  {
    Shift(s.disk.log, [], [], []);
    if txs != [] {
      var o := ProcessAndSave(limit, s, number, txs[0]);
      OneAfter(limit, s, number, txs[0], o);
      if o.stop.None? {
        LogAfter(limit, o.state, number, txs[1..]);
        Shift(s.disk.log, EntryOf(txs[0]), SavedLog(limit, o.state, number, txs[1..]),
              Stray(limit, o.state, number, txs[1..]));
      } else {
        Shift(s.disk.log, EntryOf(txs[0]), [], []);
      }
    }
  }

  lemma {:induction false} StrayAfter(limit: nat, s: State, number: nat, txs: seq<Transaction>)
    requires AllValid(txs)
    ensures var j, stray := Saved(limit, s, number, txs), Stray(limit, s, number, txs);
            && j <= |txs|
            && (stray != [] ==>
                  && j < |txs| && stray == EntryOf(txs[j]) && |stray| == 1
                  && ProcessValid(limit, s, number, txs).stop == Some(Killed))
    decreases |txs|
  {
    if txs != [] {
      var o := ProcessAndSave(limit, s, number, txs[0]);
      OneAfter(limit, s, number, txs[0], o);
      if o.stop.None? {
        StrayAfter(limit, o.state, number, txs[1..]);
      }
    }
  }

  lemma {:induction false} SavedAreEntries(limit: nat, s: State, number: nat, txs: seq<Transaction>)
    ensures var j := Saved(limit, s, number, txs); j <= |txs| && SavedLog(limit, s, number, txs) == Entries(txs[..j])
    decreases |txs|
  {
    var o := if txs == [] then Outcome(s, None) else ProcessAndSave(limit, s, number, txs[0]);
    if txs == [] || o.stop.Some? {
      assert txs[..0] == [];
    } else {
      SavedAreEntries(limit, o.state, number, txs[1..]);
      var j := Saved(limit, s, number, txs);
      EntriesHead(txs[..j]);
      assert txs[..j][1..] == txs[1..][..j - 1];
    }
  }

  /** The transaction count follows the entries, up to the limit. */
  lemma {:induction false} CountAfter(limit: nat, s: State, number: nat, txs: seq<Transaction>)
    requires AllValid(txs) && (limit > 0 ==> s.transactionCount <= limit)
    ensures var o, j := ProcessValid(limit, s, number, txs), Saved(limit, s, number, txs);
            var count := s.transactionCount + |SavedLog(limit, s, number, txs)|;
            && j <= |txs| && o.stop != Some(CheckpointNotFound)
            && (o.stop.None? ==> j == |txs| && o.state.transactionCount == count && (limit > 0 ==> count <= limit))
            && (o.stop == Some(SimulatedFailure) ==> 0 < limit == count && j < |txs| && EntryOf(txs[j]) != [])
    decreases |txs|
  {
    if txs != [] {
      var o := ProcessAndSave(limit, s, number, txs[0]);
      if o.stop.None? {
        CountAfter(limit, o.state, number, txs[1..]);
      }
    }
  }

  /** The checkpoint is at the last saved transaction, if any was saved. */
  lemma {:induction false} SavedCheckpoint(limit: nat, s: State, number: nat, txs: seq<Transaction>)
    ensures var j, disk := Saved(limit, s, number, txs), ProcessValid(limit, s, number, txs).state.disk;
            && j <= |txs|
            && disk.blockNumber == (if j == 0 then s.disk.blockNumber else number)
            && disk.transactionId == (if j == 0 then s.disk.transactionId else txs[j - 1].id)
    decreases |txs|
  {
    if txs != [] {
      SavedCheckpoint(limit, ProcessAndSave(limit, s, number, txs[0]).state, number, txs[1..]);
    }
  }

  predicate AllValid(txs: seq<Transaction>) {
    forall k :: 0 <= k < |txs| ==> txs[k].valid
  }

  lemma {:induction false} NextEntries(reference: seq<seq<Write>>, r: nat, txs: seq<Transaction>, j: nat)
    requires Sits(reference, r, Entries(txs)) && j <= |txs|
    ensures Sits(reference, r, Entries(txs[..j]))
    ensures Sits(reference, r + |Entries(txs[..j])|, Entries(txs[j..]))
  {
    EntriesSplit(txs, j);
    SitsSplit(reference, r, Entries(txs[..j]), Entries(txs[j..]));
  }

  lemma {:induction false} NextEntry(reference: seq<seq<Write>>, r: nat, txs: seq<Transaction>, j: nat, m: nat)
    requires Sits(reference, r, Entries(txs)) && j < |txs| && m == r + |Entries(txs[..j])| && EntryOf(txs[j]) != []
    ensures m < |reference| && [reference[m]] == EntryOf(txs[j])
  {
    NextEntries(reference, r, txs, j);
    NextHead(reference, m, txs[j..]);
  }

  lemma {:induction false} SavedSit(limit: nat, s: State, number: nat, reference: seq<seq<Write>>,
                                    txs: seq<Transaction>, r: nat, saved: seq<seq<Write>>, stray: seq<seq<Write>>,
                                    r': nat, killed: bool)
    requires AllValid(txs) && Sits(reference, r, Entries(txs)) && r' == r + |saved|
    requires saved == SavedLog(limit, s, number, txs) && stray == Stray(limit, s, number, txs)
    requires killed <==> ProcessValid(limit, s, number, txs).stop == Some(Killed)
    ensures Sits(reference, r, saved)
    ensures stray != [] ==> killed && r' < |reference| && stray == [reference[r']]
  {
    var j := Saved(limit, s, number, txs);
    SavedAreEntries(limit, s, number, txs);
    NextEntries(reference, r, txs, j);
    StrayAfter(limit, s, number, txs);
    if stray != [] {
      NextEntry(reference, r, txs, j, r');
    }
  }

  lemma {:induction false} FailsBeforeTheEnd(limit: nat, s: State, number: nat, reference: seq<seq<Write>>,
                                             txs: seq<Transaction>, r: nat)
    requires AllValid(txs) && Sits(reference, r, Entries(txs)) && (limit > 0 ==> s.transactionCount <= limit)
    requires ProcessValid(limit, s, number, txs).stop == Some(SimulatedFailure)
    ensures r + |SavedLog(limit, s, number, txs)| < |reference|
  {
    CountAfter(limit, s, number, txs);
    SavedAreEntries(limit, s, number, txs);
    NextEntry(reference, r, txs, Saved(limit, s, number, txs), r + |SavedLog(limit, s, number, txs)|);
  }

  lemma {:induction false} ListGrows(limit: nat, s: State, number: nat, reference: seq<seq<Write>>,
                                     txs: seq<Transaction>, r: nat, o: Outcome, r': nat)
    requires AllValid(txs) && Sits(reference, r, Entries(txs))
    requires o == ProcessValid(limit, s, number, txs) && r' == r + |SavedLog(limit, s, number, txs)|
    ensures Grown(reference, s.disk.log, r, o.state.disk.log, r', o.stop == Some(Killed))
  {
    var saved, stray := SavedLog(limit, s, number, txs), Stray(limit, s, number, txs);
    SavedSit(limit, s, number, reference, txs, r, saved, stray, r', o.stop == Some(Killed));
    LogAfter(limit, s, number, txs);
    GrownBy(reference, s.disk.log, r, saved, stray, o.state.disk.log, r', o.stop == Some(Killed));
  }

  lemma {:induction false} ListCounts(limit: nat, s: State, number: nat, reference: seq<seq<Write>>,
                                      txs: seq<Transaction>, r: nat, o: Outcome, r': nat)
    requires AllValid(txs) && Sits(reference, r, Entries(txs)) && (limit > 0 ==> s.transactionCount <= limit)
    requires o == ProcessValid(limit, s, number, txs) && r' == r + |SavedLog(limit, s, number, txs)|
    ensures Counted(limit, s, o, r' - r, r' < |reference|)
  {
    CountAfter(limit, s, number, txs);
    if o.stop == Some(SimulatedFailure) {
      FailsBeforeTheEnd(limit, s, number, reference, txs, r);
    }
  }

  lemma {:induction false} ListRuns(limit: nat, s: State, number: nat, reference: seq<seq<Write>>,
                                    txs: seq<Transaction>, r: nat, o: Outcome, r': nat)
    requires AllValid(txs) && Sits(reference, r, Entries(txs)) && (limit > 0 ==> s.transactionCount <= limit)
    requires o == ProcessValid(limit, s, number, txs) && r' == r + |SavedLog(limit, s, number, txs)|
    ensures Ran(limit, reference, s, r, o, r')
  {
    ListGrows(limit, s, number, reference, txs, r, o, r');
    ListCounts(limit, s, number, reference, txs, r, o, r');
  }

  // ---- A block ----

  lemma {:induction false} OnlyValidIsValid(txs: seq<Transaction>)
    ensures AllValid(OnlyValid(txs))
  {
    if txs != [] {
      OnlyValidIsValid(txs[..|txs| - 1]);
    }
  }

  /** The invalid ones have no entries. */
  lemma {:induction false} EntriesOfValid(txs: seq<Transaction>)
    ensures Entries(OnlyValid(txs)) == Entries(txs)
  {
    if txs != [] {
      var n := |txs| - 1;
      EntriesOfValid(txs[..n]);
      EntriesOfConcat(OnlyValid(txs[..n]), if txs[n].valid then [txs[n]] else []);
      EntriesOfOne(txs[n]);
    }
  }

  /** The place in a block of the first `j` of its valid transactions. */
  lemma {:induction false} PlaceOfValid(txs: seq<Transaction>, j: nat) returns (i: nat)
    requires j <= |OnlyValid(txs)|
    ensures i <= |txs| && OnlyValid(txs[..i]) == OnlyValid(txs)[..j]
    ensures if j == 0 then i == 0 else i > 0 && txs[i - 1] == OnlyValid(txs)[j - 1]
  {
    if j == 0 {
      i := 0;
      assert txs[..0] == [];
    } else {
      var n := |txs| - 1;
      if j <= |OnlyValid(txs[..n])| {
        i := PlaceOfValid(txs[..n], j);
        assert txs[..n][..i] == txs[..i];
        assert OnlyValid(txs)[..j] == OnlyValid(txs[..n])[..j];
      } else {
        i := n + 1;
        assert txs[..i] == txs;
      }
    }
  }

  lemma {:induction false} EntriesUpTo(txs: seq<Transaction>, i: nat, k: nat)
    requires i + k <= |txs|
    ensures Entries(txs[..i + k]) == Entries(txs[..i]) + Entries(txs[i..][..k])
  {
    TakeThenDrop(txs, i, k);
    EntriesOfConcat(txs[..i], txs[i..][..k]);
  }

  lemma {:induction false} PlaceCounts(txs: seq<Transaction>, i: nat, k: nat)
    requires i + k <= |txs|
    ensures |Entries(txs[..i + k])| == |Entries(txs[..i])| + |Entries(OnlyValid(txs[i..][..k]))|
  {
    EntriesUpTo(txs, i, k);
    EntriesOfValid(txs[i..][..k]);
  }

  lemma {:induction false} PlaceIsNamed(disk: Disk, disk': Disk, number: nat, txs: seq<Transaction>, i: nat, j: nat,
                                        k: nat)
    requires PointsTo(disk, number, txs, i) && j <= |OnlyValid(txs[i..])| && i + k <= |txs|
    requires if j == 0 then k == 0 else k > 0 && txs[i..][k - 1] == OnlyValid(txs[i..])[j - 1]
    requires disk'.blockNumber == (if j == 0 then disk.blockNumber else number)
    requires disk'.transactionId == (if j == 0 then disk.transactionId else OnlyValid(txs[i..])[j - 1].id)
    ensures PointsTo(disk', number, txs, i + k)
  {
    if j > 0 {
      OnlyValidIsValid(txs[i..]);
      assert txs[i + k - 1] == txs[i..][k - 1];
    }
  }

  /** In a block, with `i` transactions behind the checkpoint, saving the first `j` valid
      ones of the rest leaves the checkpoint at a position again. */
  lemma {:induction false} PlaceInBlock(disk: Disk, disk': Disk, number: nat, txs: seq<Transaction>, i: nat, j: nat)
    returns (i': nat)
    requires PointsTo(disk, number, txs, i) && j <= |OnlyValid(txs[i..])|
    requires disk'.blockNumber == (if j == 0 then disk.blockNumber else number)
    requires disk'.transactionId == (if j == 0 then disk.transactionId else OnlyValid(txs[i..])[j - 1].id)
    ensures PointsTo(disk', number, txs, i')
    ensures |Entries(txs[..i'])| == |Entries(txs[..i])| + |Entries(OnlyValid(txs[i..])[..j])|
  {
    var k := PlaceOfValid(txs[i..], j);
    i' := i + k;
    PlaceCounts(txs, i, k);
    PlaceIsNamed(disk, disk', number, txs, i, j, k);
  }

  lemma {:induction false} ValidEntriesSplit(txs: seq<Transaction>, i: nat)
    requires i <= |txs|
    ensures Entries(txs) == Entries(txs[..i]) + Entries(OnlyValid(txs[i..]))
  {
    EntriesSplit(txs, i);
    EntriesOfValid(txs[i..]);
  }

  lemma {:induction false} NextInBlock(reference: seq<seq<Write>>, base: nat, txs: seq<Transaction>, i: nat, r: nat,
                                       rest: seq<seq<Write>>)
    requires Sits(reference, base, Entries(txs)) && i <= |txs|
    requires r == base + |Entries(txs[..i])| && rest == Entries(OnlyValid(txs[i..]))
    ensures Sits(reference, r, rest)
  {
    ValidEntriesSplit(txs, i);
    SitsSplit(reference, base, Entries(txs[..i]), rest);
  }

  lemma {:induction false} SaveRuns(limit: nat, reference: seq<seq<Write>>, s: State, r: nat, number: nat, id: string)
    requires r <= |reference| && (limit > 0 ==> s.transactionCount <= limit)
    ensures Ran(limit, reference, s, r, Save(s, number, id), r)
  {
    assert s.disk.log + reference[r..r] == s.disk.log;
  }

  /** Where the checkpoint is after the valid new transactions of a block. */
  lemma {:induction false} RestReaches(limit: nat, s: State, number: nat, txs: seq<Transaction>, i: nat, done: Outcome)
    returns (i': nat)
    requires PointsTo(s.disk, number, txs, i)
    requires done == ProcessValid(limit, s, number, OnlyValid(txs[i..]))
    ensures PointsTo(done.state.disk, number, txs, i')
    ensures |Entries(txs[..i'])| == |Entries(txs[..i])| + |SavedLog(limit, s, number, OnlyValid(txs[i..]))|
  {
    var valid := OnlyValid(txs[i..]);
    SavedAreEntries(limit, s, number, valid);
    SavedCheckpoint(limit, s, number, valid);
    i' := PlaceInBlock(s.disk, done.state.disk, number, txs, i, Saved(limit, s, number, valid));
  }

  lemma {:induction false} AllSaved(limit: nat, s: State, number: nat, txs: seq<Transaction>, i: nat)
    requires i <= |txs| && (limit > 0 ==> s.transactionCount <= limit)
    requires ProcessValid(limit, s, number, OnlyValid(txs[i..])).stop.None?
    ensures |Entries(txs)| == |Entries(txs[..i])| + |SavedLog(limit, s, number, OnlyValid(txs[i..]))|
  {
    var valid := OnlyValid(txs[i..]);
    OnlyValidIsValid(txs[i..]);
    CountAfter(limit, s, number, valid);
    SavedAreEntries(limit, s, number, valid);
    ValidEntriesSplit(txs, i);
    assert valid[..|valid|] == valid;
  }

  lemma {:induction false} BlockRuns(limit: nat, s: State, block: Block, reference: seq<seq<Write>>, base: nat,
                                     i: nat, r: nat, end: Outcome) returns (i': nat, r': nat)
    requires Resumable(block.transactions) && Sits(reference, base, Entries(block.transactions))
    requires PointsTo(s.disk, block.number, block.transactions, i) && r == base + |Entries(block.transactions[..i])|
    requires (limit > 0 ==> s.transactionCount <= limit) && end == ProcessBlock(limit, s, block)
    ensures Ran(limit, reference, s, r, end, r')
    ensures if end.stop.None? then
              && end.state.disk.blockNumber == block.number + 1 && end.state.disk.transactionId == ""
              && r' == base + |Entries(block.transactions)|
            else
              && PointsTo(end.state.disk, block.number, block.transactions, i')
              && r' == base + |Entries(block.transactions[..i'])|
  {
    var txs := block.transactions;
    var done := ProcessValid(limit, s, block.number, OnlyValid(txs[i..]));
    r' := r + |SavedLog(limit, s, block.number, OnlyValid(txs[i..]))|;
    NewFromCheckpoint(s.disk, block.number, txs, i);
    NextInBlock(reference, base, txs, i, r, Entries(OnlyValid(txs[i..])));
    OnlyValidIsValid(txs[i..]);
    ListRuns(limit, s, block.number, reference, OnlyValid(txs[i..]), r, done, r');
    i' := RestReaches(limit, s, block.number, txs, i, done);
    if done.stop.None? {
      AllSaved(limit, s, block.number, txs, i);
      SaveRuns(limit, reference, done.state, r', block.number + 1, "");
      RanFurther(limit, reference, s, r, done, r', end, r');
    }
  }

  /** A checkpoint somewhere in the chain, or at its end. */
  predicate At(chain: seq<Block>, disk: Disk, n: nat, i: nat) {
    n <= |chain| &&
    if n < |chain| then PointsTo(disk, n, chain[n].transactions, i)
    else disk.blockNumber == n && disk.transactionId == "" && i == 0
  }

  /** How many entries a position vouches for. */
  function Vouched(chain: seq<Block>, n: nat, i: nat): nat
    requires n <= |chain| && (n < |chain| ==> i <= |chain[n].transactions|)
  {
    |Reference(chain[..n])| + if n < |chain| then |Entries(chain[n].transactions[..i])| else 0
  }

  lemma {:induction false} BlockInPlace(chain: seq<Block>, n: nat)
    requires n < |chain|
    ensures Sits(Reference(chain), |Reference(chain[..n])|, Entries(chain[n].transactions))
    ensures Vouched(chain, n + 1, 0) == |Reference(chain[..n])| + |Entries(chain[n].transactions)|
  {
    assert chain[..n + 1][..n] == chain[..n];
    ReferenceGrows(chain, n + 1);
    if n + 1 < |chain| {
      assert chain[n + 1].transactions[..0] == [];
    }
  }

  lemma {:induction false} NothingRuns(limit: nat, reference: seq<seq<Write>>, s: State, r: nat)
    requires r <= |reference| && (limit > 0 ==> s.transactionCount <= limit)
    ensures Ran(limit, reference, s, r, Outcome(s, None), r)
  {
    assert s.disk.log + reference[r..r] == s.disk.log;
  }

  lemma {:induction false} BlocksRun(limit: nat, s: State, chain: seq<Block>, height: nat, n: nat, i: nat, r: nat,
                                     end: Outcome)
    returns (n': nat, i': nat, r': nat)
    requires WellFormed(chain) && n <= height <= |chain| && At(chain, s.disk, n, i) && r == Vouched(chain, n, i)
    requires r <= |Reference(chain)| && (limit > 0 ==> s.transactionCount <= limit)
    requires end == ProcessBlocks(limit, s, chain[n..height])
    ensures At(chain, end.state.disk, n', i') && r' == Vouched(chain, n', i')
    ensures Ran(limit, Reference(chain), s, r, end, r')
    ensures end.stop.None? ==> n' == height
    decreases height - n
  {
    if n == height {
      assert chain[n..height] == [];
      n', i', r' := n, i, r;
      NothingRuns(limit, Reference(chain), s, r);
    } else {
      assert chain[n..height][1..] == chain[n + 1..height];
      BlockInPlace(chain, n);
      var done := ProcessBlock(limit, s, chain[n]);
      i', r' := BlockRuns(limit, s, chain[n], Reference(chain), |Reference(chain[..n])|, i, r, done);
      n' := n;
      if done.stop.None? {
        var m := r';
        n', i', r' := BlocksRun(limit, done.state, chain, height, n + 1, 0, m, end);
        RanFurther(limit, Reference(chain), s, r, done, m, end, r');
      }
    }
  }

  /** What one process keeps, the checkpoint vouching for `r` entries before
      and `r'` after: a kill lets the log run ahead by at most one entry more, a simulated
      failure does not, and the transaction count follows the entries written. */
  ghost predicate Advances(limit: nat, reference: seq<seq<Write>>, s: State, r: nat, o: Outcome, r': nat) {
    && Covers(o.state.disk.log, reference, r')
    && |o.state.disk.log| - r' <= |s.disk.log| - r + (if o.stop == Some(Killed) then 1 else 0)
    && o.stop != Some(CheckpointNotFound)
    && (o.stop.None? ==>
          && o.state.transactionCount == s.transactionCount + r' - r
          && (limit > 0 ==> o.state.transactionCount <= limit))
    && (o.stop == Some(SimulatedFailure) ==>
          0 < limit == s.transactionCount + r' - r && r' < |reference|)
  }

  /** Appending the next entries one by one. */
  lemma {:induction false} CoversMore(log: seq<seq<Write>>, reference: seq<seq<Write>>, r: nat, more: seq<seq<Write>>)
    requires Covers(log, reference, r) && Sits(reference, r, more)
    ensures Covers(log + more, reference, r + |more|)
  {
    if more == [] {
      assert log + more == log;
    } else {
      var n := |more| - 1;
      SliceAt(reference, r, more, n);
      CoversMore(log, reference, r, more[..n]);
      AppendCovers(log + more[..n], reference, r + n);
      assert log + more[..n] + [more[n]] == log + more;
    }
  }

  lemma {:induction false} SliceAt(reference: seq<seq<Write>>, r: nat, part: seq<seq<Write>>, n: nat)
    requires Sits(reference, r, part) && n < |part|
    ensures Sits(reference, r, part[..n]) && reference[r + n] == part[n]
  {
    assert reference[r..r + |part|][..n] == reference[r..r + n];
    assert reference[r..r + |part|][n] == reference[r + n];
  }

  lemma {:induction false} OneMoreInReference(reference: seq<seq<Write>>, r: nat, r': nat)
    requires r <= r' < |reference|
    ensures reference[r..r' + 1] == reference[r..r'] + [reference[r']]
  {
  }

  lemma {:induction false} GrownCovers(reference: seq<seq<Write>>, log: seq<seq<Write>>, r: nat,
                                       log': seq<seq<Write>>, r': nat, killed: bool)
    requires Covers(log, reference, r) && Grown(reference, log, r, log', r', killed)
    ensures Covers(log', reference, r') && |log'| - |log| <= r' - r + if killed then 1 else 0
  {
    var saved := reference[r..r'];
    CoversMore(log, reference, r, saved);
    if log' != log + saved {
      OneMoreInReference(reference, r, r');
      assert log' == log + saved + [reference[r']];
      AppendCovers(log + saved, reference, r');
    }
  }

  lemma {:induction false} RanAdvances(limit: nat, reference: seq<seq<Write>>, s: State, r: nat, o: Outcome, r': nat)
    requires Covers(s.disk.log, reference, r) && Ran(limit, reference, s, r, o, r')
    ensures Advances(limit, reference, s, r, o, r')
  {
    GrownCovers(reference, s.disk.log, r, o.state.disk.log, r', o.stop == Some(Killed));
  }

  /** One process, over as much of the chain as it gets to see. */
  lemma {:induction false} SessionAdvances(limit: nat, disk: Disk, chain: seq<Block>, height: nat, life: nat, n: nat,
                                           i: nat)
    returns (n': nat, i': nat)
    requires WellFormed(chain) && height <= |chain| && At(chain, disk, n, i)
    requires Covers(disk.log, Reference(chain), Vouched(chain, n, i))
    ensures var end := Session(limit, disk, chain[..height], life);
            && At(chain, end.state.disk, n', i')
            && Advances(limit, Reference(chain), State(disk, 0, life), Vouched(chain, n, i),
                        end, Vouched(chain, n', i'))
            && (end.stop.None? && n <= height ==> n' == height)
  {
    var s, end, r := State(disk, 0, life), Session(limit, disk, chain[..height], life), Vouched(chain, n, i);
    n', i' := n, i;
    if n <= height {
      assert chain[..height][n..] == chain[n..height];
      var r';
      n', i', r' := BlocksRun(limit, s, chain, height, n, i, r, end);
    } else {
      NothingRuns(limit, Reference(chain), s, r);
    }
    RanAdvances(limit, Reference(chain), s, r, end, Vouched(chain, n', i'));
  }

  // ---- Any number of processes ----

  datatype Launch = Launch(limit: nat, height: nat, life: nat)

  const NEW_DISK := Disk(0, "", [])

  function Listening(disk: Disk, chain: seq<Block>, l: Launch): Outcome
    requires l.height <= |chain|
  {
    Session(l.limit, disk, chain[..l.height], l.life)
  }

  function AfterAll(disk: Disk, chain: seq<Block>, launches: seq<Launch>): Disk
    requires forall l :: l in launches ==> l.height <= |chain|
    decreases |launches|
  {
    if launches == [] then disk
    else AfterAll(Listening(disk, chain, launches[0]).state.disk, chain, launches[1..])
  }

  function Kills(disk: Disk, chain: seq<Block>, launches: seq<Launch>): nat
    requires forall l :: l in launches ==> l.height <= |chain|
    decreases |launches|
  {
    if launches == [] then 0
    else
      var o := Listening(disk, chain, launches[0]);
      (if o.stop == Some(Killed) then 1 else 0) + Kills(o.state.disk, chain, launches[1..])
  }

  /** The state of the files in which the store is ahead of the checkpoint by at most
      `slack` entries, all of them repeats but perhaps the last. */
  ghost predicate InStep(chain: seq<Block>, disk: Disk, n: nat, i: nat, slack: nat) {
    && At(chain, disk, n, i) && Covers(disk.log, Reference(chain), Vouched(chain, n, i))
    && |disk.log| <= Vouched(chain, n, i) + slack
  }

  lemma {:induction false} AlwaysInStep(chain: seq<Block>, disk: Disk, launches: seq<Launch>, n: nat, i: nat,
                                        slack: nat)
    returns (n': nat, i': nat)
    requires WellFormed(chain) && (forall l :: l in launches ==> l.height <= |chain|)
    requires InStep(chain, disk, n, i, slack)
    ensures InStep(chain, AfterAll(disk, chain, launches), n', i', slack + Kills(disk, chain, launches))
    decreases |launches|
  {
    if launches == [] {
      n', i' := n, i;
    } else {
      var l := launches[0];
      var o := Listening(disk, chain, l);
      n', i' := SessionAdvances(l.limit, disk, chain, l.height, l.life, n, i);
      var slack' := slack + if o.stop == Some(Killed) then 1 else 0;
      n', i' := AlwaysInStep(chain, o.state.disk, launches[1..], n', i', slack');
    }
  }

  lemma {:induction false} NewDiskInStep(chain: seq<Block>)
    requires WellFormed(chain)
    ensures InStep(chain, NEW_DISK, 0, 0, 0)
  {
    assert chain[..0] == [];
    if chain != [] {
      assert chain[0].transactions[..0] == [];
    }
    assert Reference(chain)[..0] == [];
  }

  /** At-least-once delivery: after any processes, killed anywhere, the store holds the
      reference up to the checkpoint, with or without the next entry, and every further
      entry repeats its neighbour; there are no more of those than there were kills. */
  lemma {:induction false} DeliveredAtLeastOnce(chain: seq<Block>, launches: seq<Launch>) returns (n: nat, i: nat)
    requires WellFormed(chain) && forall l :: l in launches ==> l.height <= |chain|
    ensures var disk := AfterAll(NEW_DISK, chain, launches);
            && At(chain, disk, n, i) && Covers(disk.log, Reference(chain), Vouched(chain, n, i))
            && |disk.log| <= Vouched(chain, n, i) + Kills(NEW_DISK, chain, launches)
  {
    NewDiskInStep(chain);
    n, i := AlwaysInStep(chain, NEW_DISK, launches, 0, 0, 0);
  }

  /** Without kills, simulated failures or not, the store is exactly the reference up to
      the checkpoint. */
  lemma {:induction false} DeliveredExactlyOnce(chain: seq<Block>, launches: seq<Launch>) returns (n: nat, i: nat)
    requires WellFormed(chain) && forall l :: l in launches ==> l.height <= |chain|
    requires Kills(NEW_DISK, chain, launches) == 0
    ensures var disk := AfterAll(NEW_DISK, chain, launches);
            && At(chain, disk, n, i) && Vouched(chain, n, i) <= |Reference(chain)|
            && disk.log == Reference(chain)[..Vouched(chain, n, i)]
  {
    n, i := DeliveredAtLeastOnce(chain, launches);
    ExactWhenShort(AfterAll(NEW_DISK, chain, launches).log, Reference(chain), Vouched(chain, n, i));
  }

  lemma {:induction false} ExactWhenShort(log: seq<seq<Write>>, reference: seq<seq<Write>>, r: nat)
    requires Covers(log, reference, r) && |log| <= r
    ensures log == reference[..r]
  {
    if Stutters(log, reference[..r]) {
      StuttersAtLeast(log, reference[..r]);
    } else {
      StuttersAtLeast(log, reference[..r + 1]);
    }
  }

  /** Launches that see the whole chain, fail after `c` writes and are not killed. */
  ghost predicate Patient(disk: Disk, chain: seq<Block>, launches: seq<Launch>, c: nat) {
    && (forall l :: l in launches ==> l.limit == c && l.height == |chain|)
    && Kills(disk, chain, launches) == 0
  }

  lemma {:induction false} AdvanceByLimit(c: nat, reference: seq<seq<Write>>, s: State, r: nat, o: Outcome, r': nat)
    requires Advances(c, reference, s, r, o, r') && s.transactionCount == 0 && o.stop != Some(Killed) && o.stop.Some?
    ensures r' == r + c && r' < |reference|
  {
    match o.stop.value
    case SimulatedFailure =>
    case Killed =>
    case CheckpointNotFound =>
  }

  lemma {:induction false} OneFewer(k: nat, c: nat)
    requires k > 0
    ensures k * c == (k - 1) * c + c
  {
  }

  lemma {:induction false} PatientStep(chain: seq<Block>, disk: Disk, l: Launch, n: nat, i: nat)
    returns (n': nat, i': nat)
    requires WellFormed(chain) && l.height == |chain| && InStep(chain, disk, n, i, 0)
    requires Listening(disk, chain, l).stop != Some(Killed)
    ensures InStep(chain, Listening(disk, chain, l).state.disk, n', i', 0)
    ensures n' == |chain| || Vouched(chain, n', i') == Vouched(chain, n, i) + l.limit < |Reference(chain)|
  {
    var o := Listening(disk, chain, l);
    n', i' := SessionAdvances(l.limit, disk, chain, l.height, l.life, n, i);
    if o.stop.Some? {
      AdvanceByLimit(l.limit, Reference(chain), State(disk, 0, l.life), Vouched(chain, n, i),
                     o, Vouched(chain, n', i'));
    }
  }

  lemma {:induction false} Progress(chain: seq<Block>, disk: Disk, launches: seq<Launch>, c: nat, n: nat, i: nat)
    requires WellFormed(chain) && c > 0 && Patient(disk, chain, launches, c) && InStep(chain, disk, n, i, 0)
    requires n == |chain| || (launches != [] && |Reference(chain)| - Vouched(chain, n, i) <= |launches| * c)
    ensures AfterAll(disk, chain, launches) == Disk(|chain|, "", Reference(chain))
    decreases |launches|
  {
    if launches == [] {
      assert chain[..n] == chain;
      ExactWhenShort(disk.log, Reference(chain), Vouched(chain, n, i));
    } else {
      var n', i' := PatientStep(chain, disk, launches[0], n, i);
      OneFewer(|launches|, c);
      Progress(chain, Listening(disk, chain, launches[0]).state.disk, launches[1..], c, n', i');
    }
  }

  lemma {:induction false} CeilingCovers(total: nat, c: nat)
    requires c > 0
    ensures (total + c - 1) / c * c >= total
    ensures total >= 1 ==> (total + c - 1) / c >= 1
  {
  }

  /** With a simulated failure after every `c` writes, ceil(N / c) processes deliver a
      chain of N >= 1 writing transactions, each exactly once. */
  lemma {:induction false} FinishesInTime(chain: seq<Block>, launches: seq<Launch>, c: nat)
    requires WellFormed(chain) && c > 0 && Patient(NEW_DISK, chain, launches, c)
    requires |Reference(chain)| >= 1 && |launches| == (|Reference(chain)| + c - 1) / c
    ensures AfterAll(NEW_DISK, chain, launches) == Disk(|chain|, "", Reference(chain))
  {
    NewDiskInStep(chain);
    CeilingCovers(|Reference(chain)|, c);
    Progress(chain, NEW_DISK, launches, c, 0, 0);
  }

  // ---- A repeated id ----

  lemma {:induction false} ThreeTransactions(first: Transaction, second: Transaction, copy: Transaction)
    requires first.valid && second.valid && !copy.valid && copy.id == first.id
    ensures OnlyValid([first, second, copy]) == [first, second]
    ensures LastIndex([first, second, copy], first.id) == Some(2)
    ensures Entries([first, second, copy]) == EntryOf(first) + EntryOf(second)
  {
    var txs := [first, second, copy];
    assert txs[..2] == [first, second] && txs[..2][..1] == [first] && [first][..0] == [];
    assert OnlyValid([first]) == [first] && OnlyValid([first, second]) == [first, second];
    assert [first, second] + [] == [first, second] && Entries([first, second]) + [] == Entries([first, second]);
    EntriesOfConcat([first], [second]);
    assert [first] + [second] == [first, second];
    EntriesOfOne(first);
    EntriesOfOne(second);
  }

  /** The process that stores and checkpoints the first transaction and dies. */
  lemma {:induction false} DiesAfterFirst(first: Transaction, second: Transaction, copy: Transaction)
    requires first.valid && second.valid && !copy.valid && copy.id == first.id
    requires Writes(first) != [] && Writes(second) != []
    ensures Session(0, NEW_DISK, [Block(0, [first, second, copy])], 2).state.disk == Disk(0, first.id, [Writes(first)])
  {
    var block := Block(0, [first, second, copy]);
    var s := State(NEW_DISK, 0, 2);
    ThreeTransactions(first, second, copy);
    assert [block][0..] == [block] && [first, second][1..] == [second];
    var saved := State(Disk(0, first.id, [Writes(first)]), 1, 0);
    assert [] + [Writes(first)] == [Writes(first)];
    assert ProcessAndSave(0, s, 0, first) == Outcome(saved, None);
    assert ProcessValid(0, s, 0, [first, second]) == ProcessValid(0, saved, 0, [second]);
  }

  /** The process after it takes the copy for the transaction it has to resume after. */
  lemma {:induction false} ResumesAfterTheCopy(first: Transaction, second: Transaction, copy: Transaction,
                                               log: seq<seq<Write>>)
    requires first.valid && second.valid && !copy.valid && copy.id == first.id && first.id != ""
    ensures Session(0, Disk(0, first.id, log), [Block(0, [first, second, copy])], 1).state.disk == Disk(1, "", log)
  {
    var block := Block(0, [first, second, copy]);
    var s := State(Disk(0, first.id, log), 0, 1);
    ThreeTransactions(first, second, copy);
    assert [block][0..] == [block] && [block][1..] == [];
    assert block.transactions[3..] == [] && OnlyValid([]) == [];
    assert ProcessBlock(0, s, block) == Save(s, 1, "");
    assert ProcessBlocks(0, s, [block]) == Save(s, 1, "");
  }

  /** What a repeated id costs. A valid transaction, another, and an invalid one under the
      id of the first: killed between the two, the listener never delivers the second, and
      moves on past the block. */
  lemma {:induction false} RepeatedIdLosesData(first: Transaction, second: Transaction, copy: Transaction)
    returns (chain: seq<Block>, launches: seq<Launch>)
    requires first.valid && second.valid && !copy.valid && copy.id == first.id && first.id != ""
    requires Writes(first) != [] && Writes(second) != []
    ensures chain == [Block(0, [first, second, copy])] && forall l :: l in launches ==> l.height <= |chain|
    ensures AfterAll(NEW_DISK, chain, launches) == Disk(|chain|, "", [Writes(first)])
    ensures Reference(chain) == [Writes(first), Writes(second)]
  {
    chain := [Block(0, [first, second, copy])];
    launches := [Launch(0, 1, 2), Launch(0, 1, 1)];
    ThreeTransactions(first, second, copy);
    assert chain[..0] == [] && chain[..1] == chain;
    DiesAfterFirst(first, second, copy);
    ResumesAfterTheCopy(first, second, copy, [Writes(first)]);
    assert launches[1..] == [Launch(0, 1, 1)] && launches[1..][1..] == [];
  }
}
