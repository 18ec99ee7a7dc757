/** Replaying the off-chain store gives the on-chain state, repeats and all, and exactly
    when no transaction writes under two namespaces. */
module OffChainReplay {
  import opened Wrappers
  import opened OffChainData
  import opened OffChainDataProofs

  type Place = (string, string)
  type Table = map<Place, string>

  function PlaceOf(w: Write): Place {
    (w.namespace, w.key)
  }

  function ApplyOne(t: Table, w: Write): Table {
    if w.isDelete then t - {PlaceOf(w)} else t[PlaceOf(w) := w.value]
  }

  function ApplyWrites(t: Table, ws: seq<Write>): Table {
    if ws == [] then t else ApplyOne(ApplyWrites(t, ws[..|ws| - 1]), ws[|ws| - 1])
  }

  function ReplayLog(t: Table, log: seq<seq<Write>>): Table {
    if log == [] then t else ApplyWrites(ReplayLog(t, log[..|log| - 1]), log[|log| - 1])
  }

  function Lookup(t: Table, p: Place): Option<string> {
    if p in t then Some(t[p]) else None
  }

  /** What a list of writes leaves at a place, whatever was there; None if nothing. */
  function Effect(ws: seq<Write>, p: Place): Option<Option<string>> {
    if ws == [] then None
    else
      var w := ws[|ws| - 1];
      if PlaceOf(w) != p then Effect(ws[..|ws| - 1], p)
      else Some(if w.isDelete then None else Some(w.value))
  }

  lemma {:induction false} AppliedAt(t: Table, ws: seq<Write>, p: Place)
    ensures Lookup(ApplyWrites(t, ws), p) == if Effect(ws, p).None? then Lookup(t, p) else Effect(ws, p).value
  {
    if ws != [] {
      AppliedAt(t, ws[..|ws| - 1], p);
    }
  }

  lemma {:induction false} SameTable(t: Table, u: Table)
    requires forall p :: Lookup(t, p) == Lookup(u, p)
    ensures t == u
  {
    forall p
      ensures p in t <==> p in u
      ensures p in t ==> t[p] == u[p]
    {
      assert Lookup(t, p) == Lookup(u, p);
    }
  }

  /** Applying the same writes again changes nothing. */
  lemma {:induction false} ApplyTwice(t: Table, ws: seq<Write>)
    ensures ApplyWrites(ApplyWrites(t, ws), ws) == ApplyWrites(t, ws)
  {
    forall p
      ensures Lookup(ApplyWrites(ApplyWrites(t, ws), ws), p) == Lookup(ApplyWrites(t, ws), p)
    {
      AppliedAt(ApplyWrites(t, ws), ws, p);
      AppliedAt(t, ws, p);
    }
    SameTable(ApplyWrites(ApplyWrites(t, ws), ws), ApplyWrites(t, ws));
  }

  /** Entries repeated on the spot do not show in the replayed state. */
  lemma {:induction false} RepeatsDoNotShow(t: Table, log: seq<seq<Write>>, reference: seq<seq<Write>>)
    requires Stutters(log, reference)
    ensures ReplayLog(t, log) == ReplayLog(t, reference)
    decreases |log|
  {
    if log != [] {
      var n, m := |log| - 1, |reference| - 1;
      if Stutters(log[..n], reference[..m]) {
        RepeatsDoNotShow(t, log[..n], reference[..m]);
      } else {
        RepeatsDoNotShow(t, log[..n], reference);
        ApplyTwice(ReplayLog(t, reference[..m]), reference[m]);
      }
    }
  }

  // ---- What the ledger itself does ----

  predicate IsSystem(s: NamespaceSet) {
    s.namespace in SYSTEM_CHAINCODES
  }

  function ApplyKv(t: Table, namespace: string, w: KvWrite): Table {
    if w.isDelete then t - {(namespace, w.key)} else t[(namespace, w.key) := w.value]
  }

  /** The state after the first `k` writes of a namespace. */
  function ApplyNamespace(t: Table, s: NamespaceSet, k: nat): Table
    requires k <= |s.writes|
  {
    if k == 0 then t else ApplyKv(ApplyNamespace(t, s, k - 1), s.namespace, s.writes[k - 1])
  }

  /** The state after a transaction: every namespace but the system ones takes effect. */
  function ApplySets(t: Table, sets: seq<NamespaceSet>): Table {
    if sets == [] then t
    else
      var n := |sets| - 1;
      var before := ApplySets(t, sets[..n]);
      if IsSystem(sets[n]) then before else ApplyNamespace(before, sets[n], |sets[n].writes|)
  }

  /** What would have to be stored of the first `k` writes of a namespace. */
  function FullWrites(channel: string, s: NamespaceSet, k: nat): seq<Write>
    requires k <= |s.writes|
  {
    if k == 0 then []
    else
      var w := s.writes[k - 1];
      FullWrites(channel, s, k - 1) + [Write(channel, s.namespace, w.key, w.isDelete, w.value)]
  }

  function AllWritesOf(channel: string, sets: seq<NamespaceSet>): seq<Write> {
    if sets == [] then []
    else
      var n := |sets| - 1;
      AllWritesOf(channel, sets[..n]) + if IsSystem(sets[n]) then [] else FullWrites(channel, sets[n], |sets[n].writes|)
  }

  /** Every write of a transaction outside the system chaincodes. */
  function AllWrites(tx: Transaction): seq<Write> {
    AllWritesOf(tx.channel, tx.sets)
  }

  /** Each write is stored with its channel, namespace, key, deletion mark and value. */
  lemma {:induction false} StoredAsWritten(channel: string, s: NamespaceSet, k: nat)
    requires k <= |s.writes|
    ensures |NewWrites(channel, s)| == |s.writes| && NewWrites(channel, s)[..k] == FullWrites(channel, s, k)
    ensures forall i :: 0 <= i < k ==>
      var stored, written := NewWrites(channel, s)[i], s.writes[i];
      && stored.channelName == channel && stored.namespace == s.namespace
      && stored.key == written.key && stored.isDelete == written.isDelete && stored.value == written.value
  {
    if k > 0 {
      StoredAsWritten(channel, s, k - 1);
    }
  }

  function Flatten(channel: string, sets: seq<NamespaceSet>): seq<Write> {
    if sets == [] then []
    else Flatten(channel, sets[..|sets| - 1]) + NewWrites(channel, sets[|sets| - 1])
  }

  lemma {:induction false} AllWritesAreFlat(channel: string, sets: seq<NamespaceSet>)
    ensures AllWritesOf(channel, sets) == Flatten(channel, NonSystem(sets))
  {
    if sets != [] {
      var n := |sets| - 1;
      var front := NonSystem(sets[..n]);
      AllWritesAreFlat(channel, sets[..n]);
      StoredAsWritten(channel, sets[n], |sets[n].writes|);
      assert NewWrites(channel, sets[n])[..|sets[n].writes|] == NewWrites(channel, sets[n]);
      if IsSystem(sets[n]) {
        assert front + [] == front && AllWritesOf(channel, sets[..n]) + [] == AllWritesOf(channel, sets[..n]);
      } else {
        assert (front + [sets[n]])[..|front|] == front;
      }
    }
  }

  lemma {:induction false} NamespaceApplies(t: Table, channel: string, s: NamespaceSet, k: nat)
    requires k <= |s.writes|
    ensures ApplyWrites(t, FullWrites(channel, s, k)) == ApplyNamespace(t, s, k)
  {
    if k > 0 {
      var w := s.writes[k - 1];
      var before, last := FullWrites(channel, s, k - 1), Write(channel, s.namespace, w.key, w.isDelete, w.value);
      NamespaceApplies(t, channel, s, k - 1);
      assert (before + [last])[..k - 1] == before by {
        FullLength(channel, s, k - 1);
      }
    }
  }

  lemma {:induction false} FullLength(channel: string, s: NamespaceSet, k: nat)
    requires k <= |s.writes|
    ensures |FullWrites(channel, s, k)| == k
  {
    StoredAsWritten(channel, s, k);
  }

  lemma {:induction false} ApplyConcat(t: Table, a: seq<Write>, b: seq<Write>)
    ensures ApplyWrites(t, a + b) == ApplyWrites(ApplyWrites(t, a), b)
    decreases |b|
  {
    if b == [] {
      assert a + b == a;
    } else {
      assert (a + b)[..|a + b| - 1] == a + b[..|b| - 1];
      ApplyConcat(t, a, b[..|b| - 1]);
    }
  }

  /** Applying all the writes of a transaction is what the transaction does. */
  lemma {:induction false} AllWritesApply(t: Table, channel: string, sets: seq<NamespaceSet>)
    ensures ApplyWrites(t, AllWritesOf(channel, sets)) == ApplySets(t, sets)
  {
    if sets != [] {
      var n := |sets| - 1;
      var before := AllWritesOf(channel, sets[..n]);
      AllWritesApply(t, channel, sets[..n]);
      if IsSystem(sets[n]) {
        assert before + [] == before;
      } else {
        ApplyConcat(t, before, FullWrites(channel, sets[n], |sets[n].writes|));
        NamespaceApplies(ApplyWrites(t, before), channel, sets[n], |sets[n].writes|);
      }
    }
  }

  /** No namespace that another one follows writes anything, system ones aside. */
  predicate KeepsAll(tx: Transaction) {
    LastOnly(tx.sets)
  }

  predicate LastOnly(sets: seq<NamespaceSet>) {
    forall i, j :: 0 <= i < j < |sets| && !IsSystem(sets[i]) && !IsSystem(sets[j]) ==> sets[i].writes == []
  }

  /** Namespaces come once each, as they do in a transaction, system ones aside. */
  predicate OneEach(sets: seq<NamespaceSet>) {
    forall i, j :: 0 <= i < j < |sets| && !IsSystem(sets[i]) && !IsSystem(sets[j]) ==>
      sets[i].namespace != sets[j].namespace
  }

  predicate Idle(sets: seq<NamespaceSet>) {
    forall i :: 0 <= i < |sets| && !IsSystem(sets[i]) ==> sets[i].writes == []
  }

  /** Where a non-system namespace came from. */
  lemma {:induction false} PlaceOfNonSystem(sets: seq<NamespaceSet>, i: nat) returns (k: nat)
    requires i < |NonSystem(sets)|
    ensures k < |sets| && sets[k] == NonSystem(sets)[i] && !IsSystem(sets[k])
    ensures NonSystem(sets[..k]) == NonSystem(sets)[..i]
  {
    var n := |sets| - 1;
    if i < |NonSystem(sets[..n])| {
      k := PlaceOfNonSystem(sets[..n], i);
      assert sets[..n][..k] == sets[..k];
    } else {
      k := n;
    }
  }

  lemma {:induction false} IdleIsFlat(channel: string, sets: seq<NamespaceSet>)
    ensures Flatten(channel, NonSystem(sets)) == [] <==> Idle(sets)
  {
    if sets != [] {
      var n := |sets| - 1;
      var front := NonSystem(sets[..n]);
      IdleIsFlat(channel, sets[..n]);
      assert Idle(sets) <==> Idle(sets[..n]) && (IsSystem(sets[n]) || sets[n].writes == []) by {
        assert forall i :: 0 <= i < n ==> sets[..n][i] == sets[i];
      }
      if IsSystem(sets[n]) {
        assert front + [] == front;
      } else {
        assert (front + [sets[n]])[..|front|] == front;
        assert |NewWrites(channel, sets[n])| == |sets[n].writes|;
      }
    }
  }

  /** The last non-system namespace is the one that is kept, and `sets[..k]` the others. */
  lemma {:induction false} LastOnlyIsIdle(sets: seq<NamespaceSet>, k: nat)
    requires k < |sets| && !IsSystem(sets[k]) && forall j :: k < j < |sets| ==> IsSystem(sets[j])
    ensures LastOnly(sets) <==> Idle(sets[..k])
  {
    assert forall i :: 0 <= i < k ==> sets[..k][i] == sets[i];
  }

  lemma {:induction false} AllSystemAfter(sets: seq<NamespaceSet>, k: nat)
    requires k < |sets| && NonSystem(sets) != [] && NonSystem(sets[..k]) == NonSystem(sets)[..|NonSystem(sets)| - 1]
    requires !IsSystem(sets[k])
    ensures forall j :: k < j < |sets| ==> IsSystem(sets[j])
  {
    var n := |sets| - 1;
    if k < n {
      NonSystemGrows(sets[..n], k + 1);
      assert sets[..n][..k + 1] == sets[..k + 1] && sets[..k + 1][..k] == sets[..k];
      assert |NonSystem(sets[..k + 1])| == |NonSystem(sets)|;
      assert IsSystem(sets[n]);
      assert NonSystem(sets) == NonSystem(sets[..n]) + [] == NonSystem(sets[..n]);
      assert sets[..n][..k] == sets[..k];
      AllSystemAfter(sets[..n], k);
      assert forall j :: k < j < n ==> sets[..n][j] == sets[j];
    }
  }

  lemma {:induction false} NonSystemGrows(sets: seq<NamespaceSet>, k: nat)
    requires k <= |sets|
    ensures |NonSystem(sets[..k])| <= |NonSystem(sets)|
  {
    if k == |sets| {
      assert sets[..k] == sets;
    } else {
      var n := |sets| - 1;
      NonSystemGrows(sets[..n], k);
      assert sets[..n][..k] == sets[..k];
    }
  }

  /** The listener stores all of a transaction's writes exactly when no namespace but the
      last writes anything: each namespace's writes replace those before. */
  lemma {:induction false} StoresAllWrites(tx: Transaction)
    ensures Writes(tx) == AllWrites(tx) <==> KeepsAll(tx)
  {
    var sets := NonSystem(tx.sets);
    AllWritesAreFlat(tx.channel, tx.sets);
    IdleIsFlat(tx.channel, tx.sets);
    if sets == [] {
      NoneIsLastOnly(tx.sets);
    } else {
      var n := |sets| - 1;
      var k := PlaceOfNonSystem(tx.sets, n);
      AllSystemAfter(tx.sets, k);
      LastOnlyIsIdle(tx.sets, k);
      IdleIsFlat(tx.channel, tx.sets[..k]);
      if Writes(tx) == AllWrites(tx) {
        assert |Flatten(tx.channel, sets[..n])| == 0;
      }
    }
  }

  /** In any case it stores the writes of the last non-system namespace, in order, and
      nothing when there is none. */
  lemma {:induction false} StoresTheLast(tx: Transaction)
    ensures forall k :: 0 <= k < |tx.sets| && !IsSystem(tx.sets[k]) && AllSystem(tx.sets[k + 1..]) ==>
      Writes(tx) == FullWrites(tx.channel, tx.sets[k], |tx.sets[k].writes|)
    ensures AllSystem(tx.sets) ==> Writes(tx) == []
  {
    var sets := NonSystem(tx.sets);
    if sets == [] {
      NoneIsLastOnly(tx.sets);
    } else {
      var last := PlaceOfNonSystem(tx.sets, |sets| - 1);
      AllSystemAfter(tx.sets, last);
      StoredAsWritten(tx.channel, tx.sets[last], |tx.sets[last].writes|);
      forall k | 0 <= k < |tx.sets| && !IsSystem(tx.sets[k]) && AllSystem(tx.sets[k + 1..])
        ensures k == last
      {
      }
    }
  }

  predicate AllSystem(sets: seq<NamespaceSet>) {
    forall i :: 0 <= i < |sets| ==> IsSystem(sets[i])
  }

  lemma {:induction false} NoneIsLastOnly(sets: seq<NamespaceSet>)
    requires NonSystem(sets) == []
    ensures forall i :: 0 <= i < |sets| ==> IsSystem(sets[i])
  {
    if sets != [] {
      var n := |sets| - 1;
      assert IsSystem(sets[n]);
      NoneIsLastOnly(sets[..n]);
      assert forall i :: 0 <= i < n ==> sets[..n][i] == sets[i];
    }
  }

  lemma {:induction false} EffectOfNamespace(channel: string, s: NamespaceSet, k: nat)
    requires k < |s.writes|
    ensures Effect(FullWrites(channel, s, |s.writes|), (s.namespace, s.writes[k].key)).Some?
  {
    StoredAsWritten(channel, s, |s.writes|);
    assert NewWrites(channel, s)[..|s.writes|] == NewWrites(channel, s);
    EffectOfMember(NewWrites(channel, s), k);
  }

  lemma {:induction false} EffectOfAll(channel: string, sets: seq<NamespaceSet>, i: nat, k: nat, p: Place)
    requires i < |sets| && !IsSystem(sets[i]) && k < |sets[i].writes| && p == (sets[i].namespace, sets[i].writes[k].key)
    ensures Effect(AllWritesOf(channel, sets), p).Some?
  {
    var n := |sets| - 1;
    var before, last := AllWritesOf(channel, sets[..n]), FullWrites(channel, sets[n], |sets[n].writes|);
    if i < n {
      EffectOfAll(channel, sets[..n], i, k, p);
    } else {
      EffectOfNamespace(channel, sets[n], k);
    }
    EffectOfConcat(before, last, p);
    assert IsSystem(sets[n]) ==> before + [] == before;
  }

  lemma {:induction false} EffectOfMember(ws: seq<Write>, k: nat)
    requires k < |ws|
    ensures Effect(ws, PlaceOf(ws[k])).Some?
  {
    if k < |ws| - 1 {
      EffectOfMember(ws[..|ws| - 1], k);
    }
  }

  lemma {:induction false} EffectOfConcat(a: seq<Write>, b: seq<Write>, p: Place)
    ensures Effect(a + b, p) == if Effect(b, p).Some? then Effect(b, p) else Effect(a, p)
    decreases |b|
  {
    if b == [] {
      assert a + b == a;
    } else {
      assert (a + b)[..|a + b| - 1] == a + b[..|b| - 1];
      EffectOfConcat(a, b[..|b| - 1], p);
    }
  }

  lemma {:induction false} NoEffectElsewhere(ws: seq<Write>, p: Place)
    requires forall k :: 0 <= k < |ws| ==> ws[k].namespace != p.0
    ensures Effect(ws, p).None?
  {
    if ws != [] {
      NoEffectElsewhere(ws[..|ws| - 1], p);
    }
  }

  /** And it shows: when namespaces differ and an earlier one writes, there is a state from
      which the stored writes lead elsewhere than the transaction did. */
  lemma {:induction false} DroppedWritesShow(tx: Transaction) returns (t: Table, p: Place)
    requires !KeepsAll(tx) && OneEach(tx.sets)
    ensures ApplyWrites(t, Writes(tx)) != ApplySets(t, tx.sets)
    ensures t == map[] || (t == map[p := ""] && p.0 !in SYSTEM_CHAINCODES)
  {
    var i, j :| 0 <= i < j < |tx.sets| && !IsSystem(tx.sets[i]) && !IsSystem(tx.sets[j]) && tx.sets[i].writes != [];
    p := (tx.sets[i].namespace, tx.sets[i].writes[0].key);
    EffectOfAll(tx.channel, tx.sets, i, 0, p);
    LosesPlace(tx, i, j);
    t := if Effect(AllWrites(tx), p) == Some(None) then map[p := ""] else map[];
    AppliedAt(t, Writes(tx), p);
    AppliedAt(t, AllWrites(tx), p);
    AllWritesApply(t, tx.channel, tx.sets);
  }

  lemma {:induction false} LosesPlace(tx: Transaction, i: nat, j: nat)
    requires i < j < |tx.sets| && !IsSystem(tx.sets[i]) && !IsSystem(tx.sets[j]) && OneEach(tx.sets)
    ensures forall key :: Effect(Writes(tx), (tx.sets[i].namespace, key)).None?
  {
    var sets := NonSystem(tx.sets);
    if sets == [] {
      NoneIsLastOnly(tx.sets);
      assert false;
    }
    var k := PlaceOfNonSystem(tx.sets, |sets| - 1);
    AllSystemAfter(tx.sets, k);
    assert tx.sets[i].namespace != tx.sets[k].namespace;
    StoredAsWritten(tx.channel, tx.sets[k], |tx.sets[k].writes|);
    forall key {
      NoEffectElsewhere(Writes(tx), (tx.sets[i].namespace, key));
    }
  }

  /** The state after the valid transactions of a list. */
  function OnChain(t: Table, txs: seq<Transaction>): Table {
    if txs == [] then t
    else
      var n := |txs| - 1;
      var before := OnChain(t, txs[..n]);
      if txs[n].valid then ApplySets(before, txs[n].sets) else before
  }

  function ChainState(chain: seq<Block>): Table {
    if chain == [] then map[]
    else OnChain(ChainState(chain[..|chain| - 1]), chain[|chain| - 1].transactions)
  }

  function StateAt(chain: seq<Block>, n: nat, i: nat): Table
    requires n <= |chain| && (n < |chain| ==> i <= |chain[n].transactions|)
  {
    if n < |chain| then OnChain(ChainState(chain[..n]), chain[n].transactions[..i]) else ChainState(chain[..n])
  }

  predicate Kept(txs: seq<Transaction>) {
    forall i :: 0 <= i < |txs| && txs[i].valid ==> KeepsAll(txs[i])
  }

  predicate AllKept(chain: seq<Block>) {
    forall n :: 0 <= n < |chain| ==> Kept(chain[n].transactions)
  }

  lemma {:induction false} ReplayOfConcat(t: Table, a: seq<seq<Write>>, b: seq<seq<Write>>)
    ensures ReplayLog(t, a + b) == ReplayLog(ReplayLog(t, a), b)
    decreases |b|
  {
    if b == [] {
      assert a + b == a;
    } else {
      assert (a + b)[..|a + b| - 1] == a + b[..|b| - 1];
      ReplayOfConcat(t, a, b[..|b| - 1]);
    }
  }

  lemma {:induction false} EntriesReplay(t: Table, txs: seq<Transaction>)
    requires Kept(txs)
    ensures ReplayLog(t, Entries(txs)) == OnChain(t, txs)
  {
    if txs != [] {
      var n := |txs| - 1;
      EntriesReplay(t, txs[..n]);
      StoresAllWrites(txs[n]);
      AllWritesApply(OnChain(t, txs[..n]), txs[n].channel, txs[n].sets);
      if txs[n].valid && Writes(txs[n]) != [] {
        var entries := Entries(txs[..n]);
        assert (entries + [Writes(txs[n])])[..|entries|] == entries;
      } else {
        assert Entries(txs[..n]) + [] == Entries(txs[..n]);
      }
    }
  }

  lemma {:induction false} ReferenceReplays(chain: seq<Block>)
    requires AllKept(chain)
    ensures ReplayLog(map[], Reference(chain)) == ChainState(chain)
  {
    if chain != [] {
      var n := |chain| - 1;
      ReferenceReplays(chain[..n]);
      assert Kept(chain[n].transactions);
      ReplayOfConcat(map[], Reference(chain[..n]), Entries(chain[n].transactions));
      EntriesReplay(ChainState(chain[..n]), chain[n].transactions);
    }
  }

  lemma {:induction false} PositionReplays(chain: seq<Block>, n: nat, i: nat)
    requires AllKept(chain) && n <= |chain| && (n < |chain| ==> i <= |chain[n].transactions|)
    ensures Vouched(chain, n, i) <= |Reference(chain)|
    ensures ReplayLog(map[], Reference(chain)[..Vouched(chain, n, i)]) == StateAt(chain, n, i)
  {
    ReferenceReplays(chain[..n]);
    if n < |chain| {
      DoneIsPrefix(chain, n, i);
      assert Reference(chain)[..Vouched(chain, n, i)] == Reference(chain[..n]) + Entries(chain[n].transactions[..i]);
      assert Kept(chain[n].transactions);
      ReplayOfConcat(map[], Reference(chain[..n]), Entries(chain[n].transactions[..i]));
      EntriesReplay(ChainState(chain[..n]), chain[n].transactions[..i]);
    } else {
      assert chain[..n] == chain;
      assert Reference(chain)[..|Reference(chain)|] == Reference(chain);
    }
  }

  lemma {:induction false} EntryInBlock(txs: seq<Transaction>, r: nat) returns (i: nat)
    requires r < |Entries(txs)|
    ensures 0 < i <= |txs| && txs[i - 1].valid && |Entries(txs[..i])| == r + 1 && |Entries(txs[..i - 1])| == r
  {
    var n := |txs| - 1;
    if r < |Entries(txs[..n])| {
      i := EntryInBlock(txs[..n], r);
      assert txs[..n][..i] == txs[..i] && txs[..n][..i - 1] == txs[..i - 1];
    } else {
      i := n + 1;
      assert txs[..i] == txs;
    }
  }

  /** The position right after the valid transaction that entry `r` belongs to. */
  lemma {:induction false} EntryInChain(chain: seq<Block>, r: nat) returns (n: nat, i: nat)
    requires r < |Reference(chain)|
    ensures n < |chain| && 0 < i <= |chain[n].transactions| && chain[n].transactions[i - 1].valid
    ensures Vouched(chain, n, i) == r + 1 && Vouched(chain, n, i - 1) == r
  {
    var m := |chain| - 1;
    if r < |Reference(chain[..m])| {
      n, i := EntryInChain(chain[..m], r);
      assert chain[..m][..n] == chain[..n];
    } else {
      n := m;
      i := EntryInBlock(chain[m].transactions, r - |Reference(chain[..m])|);
    }
  }

  /** Faithful replay: after any processes, killed anywhere, replaying the store gives the
      on-chain state at the checkpoint, or right after the next transaction that writes;
      once the whole chain is processed, it gives the on-chain state. */
  lemma {:induction false} ReplayIsFaithful(chain: seq<Block>, launches: seq<Launch>)
    returns (n: nat, i: nat, n': nat, i': nat)
    requires WellFormed(chain) && AllKept(chain) && forall l :: l in launches ==> l.height <= |chain|
    ensures At(chain, AfterAll(NEW_DISK, chain, launches), n, i)
    ensures n' <= |chain| && (n' < |chain| ==> i' <= |chain[n'].transactions|)
    ensures ReplayLog(map[], AfterAll(NEW_DISK, chain, launches).log) == StateAt(chain, n', i')
    ensures (n', i') == (n, i) ||
            (&& n' < |chain| && i' > 0 && chain[n'].transactions[i' - 1].valid
             && Vouched(chain, n', i' - 1) == Vouched(chain, n, i) == Vouched(chain, n', i') - 1)
    ensures n == |chain| ==> ReplayLog(map[], AfterAll(NEW_DISK, chain, launches).log) == ChainState(chain)
  {
    n, i := DeliveredAtLeastOnce(chain, launches);
    var log, reference, r := AfterAll(NEW_DISK, chain, launches).log, Reference(chain), Vouched(chain, n, i);
    PositionReplays(chain, n, i);
    assert n == |chain| ==> chain[..n] == chain;
    if Stutters(log, reference[..r]) {
      n', i' := n, i;
      RepeatsDoNotShow(map[], log, reference[..r]);
    } else {
      n', i' := EntryInChain(chain, r);
      PositionReplays(chain, n', i');
      RepeatsDoNotShow(map[], log, reference[..r + 1]);
    }
  }

  // ---- Dropped writes on a chain ----

  function Then(chain: seq<Block>, tx: Transaction): seq<Block> {
    chain + [Block(|chain|, [tx])]
  }

  lemma {:induction false} ThenReplays(chain: seq<Block>, tx: Transaction)
    requires tx.valid
    ensures ChainState(Then(chain, tx)) == ApplySets(ChainState(chain), tx.sets)
    ensures ReplayLog(map[], Reference(Then(chain, tx))) == ApplyWrites(ReplayLog(map[], Reference(chain)), Writes(tx))
  {
    var next := Then(chain, tx);
    assert next[..|chain|] == chain && [tx][..0] == [];
    assert OnChain(ChainState(chain), [tx]) == ApplySets(OnChain(ChainState(chain), []), tx.sets);
    EntriesOfOne(tx);
    ReplayOfConcat(map[], Reference(chain), EntryOf(tx));
    if Writes(tx) != [] {
      assert [Writes(tx)][..0] == [];
    }
  }

  lemma {:induction false} ThenIsWellFormed(chain: seq<Block>, tx: Transaction)
    requires WellFormed(chain) && tx.id != ""
    ensures WellFormed(Then(chain, tx))
  {
    assert Resumable([tx]);
  }

  /** What writes one place, with the empty value. */
  function Setup(channel: string, p: Place): Transaction {
    Transaction("setup", channel, true, [NamespaceSet(p.0, [KvWrite(p.1, false, "")])])
  }

  lemma {:induction false} SetupWrites(channel: string, p: Place)
    requires p.0 !in SYSTEM_CHAINCODES
    ensures ApplyWrites(map[], Writes(Setup(channel, p))) == ApplySets(map[], Setup(channel, p).sets) == map[p := ""]
  {
    var sets := Setup(channel, p).sets;
    assert sets[..0] == [];
    StoresAllWrites(Setup(channel, p));
    AllWritesApply(map[], channel, sets);
    var w := KvWrite(p.1, false, "");
    assert ApplyNamespace(map[], sets[0], 1) == ApplyKv(ApplyNamespace(map[], sets[0], 0), p.0, w);
  }

  /** Any valid transaction that loses writes ends a chain whose faithfully kept store
      replays to another state than the chain's. */
  lemma {:induction false} DroppedWritesShowOnChain(tx: Transaction) returns (chain: seq<Block>)
    requires tx.valid && tx.id != "" && !KeepsAll(tx) && OneEach(tx.sets)
    ensures WellFormed(chain) && chain != [] && chain[|chain| - 1].transactions == [tx]
    ensures ReplayLog(map[], Reference(chain)) != ChainState(chain)
  {
    var t, p := DroppedWritesShow(tx);
    var before: seq<Block> := [];
    if t != map[] {
      SetupWrites(tx.channel, p);
      ThenReplays(before, Setup(tx.channel, p));
      ThenIsWellFormed(before, Setup(tx.channel, p));
      before := Then(before, Setup(tx.channel, p));
    }
    ThenReplays(before, tx);
    ThenIsWellFormed(before, tx);
    chain := Then(before, tx);
  }
}
