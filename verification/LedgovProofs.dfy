/** Payments are recorded once, never altered, and all listed. */
module LedgovProofs {
  import opened Wrappers
  import opened Fabric
  import opened Ledgov

  lemma {:induction false} SimulatesAlike(parse: Parser, op: Op, w: Ledger, u: Ledger, rw: Sets)
    requires RecordSets(parse, w, op) == Ok(rw) && Agree(w, u, rw)
    ensures RecordSets(parse, u, op) == Ok(rw) && Fresh(w, rw)
  {
    assert RecordKey(op.id) in rw.seen;
    assert At(w, RecordKey(op.id)) == At(u, RecordKey(op.id));
  }

  /** A payment as the contract admits it. */
  predicate Admissible(t: Transaction) {
    t.id != "" && t.amount > 0.0 && t.commitmentNumber != "" && t.documentHash != ""
  }

  /** What a committed call records. */
  function RecordOf(parse: Parser, op: Op): Option<Transaction> {
    match parse(op.amountText)
    case Some(Finite(amount)) =>
      Some(Transaction(op.id, op.agency, op.supplier, amount,
                       op.commitmentNumber, op.documentHash, op.digitalSignature, op.timestamp))
    case _ => None
  }

  /** A call records exactly the admissible payments whose id is not taken. */
  lemma {:induction false} RecordsExactlyTheAdmissible(parse: Parser, w: Ledger, op: Op)
    ensures RecordSets(parse, w, op).Ok? <==>
            && op.id != "" && op.commitmentNumber != "" && op.documentHash != ""
            && (exists amount :: parse(op.amountText) == Some(Finite(amount)) && amount > 0.0)
            && RecordKey(op.id) !in w
  {
  }

  /** And otherwise fails for the first of these reasons that holds. */
  lemma {:induction false} FailsForTheFirst(parse: Parser, w: Ledger, op: Op)
    ensures var amount, r := parse(op.amountText), RecordSets(parse, w, op);
            if op.commitmentNumber == "" then r == Err(NoCommitment)
            else if op.documentHash == "" then r == Err(NoHash)
            else if amount == None then r == Err(InvalidAmount)
            else if amount == Some(Infinite(false)) || (exists x :: amount == Some(Finite(x)) && x <= 0.0) then
              r == Err(AmountNotPositive)
            else if RecordKey(op.id) in w then r == Err(AlreadyRecorded)
            else if amount == Some(Infinite(true)) || amount == Some(NotANumber) then r == Err(NotEncodable)
            else if op.id == "" then r == Err(EmptyKey)
            else r.Ok?
  {
  }

  // ---- One ledger after the other ----

  /** What one committed call does: it records a payment under an id that was not taken. */
  ghost predicate Records(parse: Parser, w: Ledger, op: Op, u: Ledger) {
    && RecordOf(parse, op).Some? && Admissible(RecordOf(parse, op).value)
    && RecordKey(op.id) !in w && ValueAt(u, RecordKey(op.id)) == Some(Encoded(RecordOf(parse, op).value))
    && forall l :: l != RecordKey(op.id) ==> At(u, l) == At(w, l)
  }

  /** The ledgers of a history, each the next one's before its call. */
  ghost predicate Ledgers(parse: Parser, ws: seq<Ledger>, ops: seq<Op>) {
    |ws| == |ops| + 1 && forall n :: 0 <= n < |ops| ==> Records(parse, ws[n], ops[n], ws[n + 1])
  }

  predicate Same(w: Ledger, u: Ledger, l: Loc) {
    l in w && l in u && w[l] == u[l]
  }

  lemma {:induction false} StepKeeps(parse: Parser, w: Ledger, op: Op, u: Ledger, l: Loc)
    requires Records(parse, w, op, u) && l in w
    ensures Same(w, u, l)
  {
    assert At(u, l) == At(w, l);
  }

  lemma {:induction false} Kept(parse: Parser, ws: seq<Ledger>, ops: seq<Op>, m: nat, n: nat, l: Loc)
    requires Ledgers(parse, ws, ops) && m <= n <= |ops| && l in ws[m]
    ensures Same(ws[m], ws[n], l)
  {
    if m < n {
      Kept(parse, ws, ops, m, n - 1, l);
      StepKeeps(parse, ws[n - 1], ops[n - 1], ws[n], l);
    }
  }

  /** All that has been recorded after some calls: what was inherited, and each payment. */
  function Book(parse: Parser, records: map<string, Transaction>, ops: seq<Op>): map<string, Transaction> {
    if ops == [] then records
    else
      var n := |ops| - 1;
      var before := Book(parse, records, ops[..n]);
      match RecordOf(parse, ops[n])
      case None => before
      case Some(t) => before[ops[n].id := t]
  }

  /** Ids that are recorded once: none was inherited, none comes twice. */
  predicate RecordedOnceIn(parse: Parser, records: map<string, Transaction>, ops: seq<Op>) {
    && (forall i :: 0 <= i < |ops| ==> RecordOf(parse, ops[i]).Some? && ops[i].id !in records)
    && (forall i, j :: 0 <= i < j < |ops| ==> ops[i].id != ops[j].id)
  }

  /** What the book holds. */
  ghost predicate IsBook(parse: Parser, records: map<string, Transaction>, ops: seq<Op>,
                         book: map<string, Transaction>) {
    && (forall id :: id in records ==> id in book && book[id] == records[id])
    && (forall i :: 0 <= i < |ops| ==> ops[i].id in book && Some(book[ops[i].id]) == RecordOf(parse, ops[i]))
    && (forall id :: id in book && id !in records ==> exists i :: 0 <= i < |ops| && ops[i].id == id)
  }

  /** It holds all that was inherited and one record for each call, and nothing else. */
  lemma {:induction false} BookIsComplete(parse: Parser, records: map<string, Transaction>, ops: seq<Op>,
                                          book: map<string, Transaction>)
    requires RecordedOnceIn(parse, records, ops) && book == Book(parse, records, ops)
    ensures IsBook(parse, records, ops, book) && |book| == |records| + |ops|
    decreases |ops|
  {
    if ops != [] {
      var n := |ops| - 1;
      var before := Book(parse, records, ops[..n]);
      BookIsComplete(parse, records, ops[..n], before);
      OneMoreInBook(parse, records, ops, before, book);
    }
  }

  lemma {:induction false} OneMoreInBook(parse: Parser, records: map<string, Transaction>, ops: seq<Op>,
                                         before: map<string, Transaction>, book: map<string, Transaction>)
    requires ops != [] && RecordedOnceIn(parse, records, ops)
    requires var n := |ops| - 1;
             && IsBook(parse, records, ops[..n], before)
             && book == before[ops[n].id := RecordOf(parse, ops[n]).value]
    ensures IsBook(parse, records, ops, book) && |book| == |before| + 1
  {
    var n := |ops| - 1;
    var id := ops[n].id;
    assert forall i :: 0 <= i < n ==> ops[..n][i] == ops[i];
    assert forall i :: 0 <= i < n ==> ops[..n][i].id != id;
    assert id !in before;
    forall i | 0 <= i < |ops|
      ensures ops[i].id in book && Some(book[ops[i].id]) == RecordOf(parse, ops[i])
    {
      assert i < n ==> ops[..n][i].id in before;
    }
    forall other | other in book && other !in records
      ensures exists i :: 0 <= i < |ops| && ops[i].id == other
    {
      if other != id {
        var i :| 0 <= i < n && ops[..n][i].id == other;
        assert ops[i].id == other;
      } else {
        assert ops[n].id == other;
      }
    }
  }

  lemma {:induction false} KeyStep(parse: Parser, w: Ledger, op: Op, u: Ledger, l: Loc)
    requires Records(parse, w, op, u)
    ensures l in u <==> l in w || l == RecordKey(op.id)
  {
    assert l != RecordKey(op.id) ==> At(u, l) == At(w, l);
  }

  lemma {:induction false} KeyOrigin(parse: Parser, ws: seq<Ledger>, ops: seq<Op>, n: nat, l: Loc)
    requires Ledgers(parse, ws, ops) && n <= |ops|
    ensures l in ws[n] <==> l in ws[0] || exists i :: 0 <= i < n && l == RecordKey(ops[i].id)
  {
    if n > 0 {
      KeyOrigin(parse, ws, ops, n - 1, l);
      KeyStep(parse, ws[n - 1], ops[n - 1], ws[n], l);
    }
  }

  function KeysOf(book: map<string, Transaction>): (keys: set<Loc>)
    ensures forall l :: l in keys <==> IsKeyOf(l, book)
  {
    set id | id in book :: RecordKey(id)
  }

  lemma {:induction false} KeysCount(book: map<string, Transaction>)
    ensures |KeysOf(book)| == |book|
    decreases |book|
  {
    if book != map[] {
      var id :| id in book;
      KeysCount(book - {id});
      assert KeysOf(book) == KeysOf(book - {id}) + {RecordKey(id)};
    }
  }

  lemma {:induction false} ListedCount(rows: seq<Loc>, keys: set<Loc>)
    requires Lists(rows, keys)
    ensures |rows| == |keys|
  {
    if rows == [] {
      assert keys == {};
    } else {
      var last := |rows| - 1;
      assert rows[last] in rows;
      forall l
        ensures l in rows[..last] <==> l in keys - {rows[last]}
      {
        if l in keys - {rows[last]} {
          assert l in rows;
        }
        if l in rows[..last] {
          assert l in rows;
        }
      }
      ListedCount(rows[..last], keys - {rows[last]});
    }
  }

  lemma {:induction false} ListsTheBook(w: Ledger, book: map<string, Transaction>, rows: seq<Loc>)
    requires HasKeys(w, book) && ListsRecords(w, rows)
    ensures |rows| == |book| && forall l :: l in rows <==> IsKeyOf(l, book)
  {
    assert Scan(w, PlainKeys(Channel)).Keys == KeysOf(book);
    KeysCount(book);
    ListedCount(rows, KeysOf(book));
  }

  // ---- Histories ----

  lemma {:induction false} CommittedIsAtomic(parse: Parser, chain: Chain, start: nat, n: nat)
    requires Run(parse, chain, start) && start <= n < |chain|
    ensures RecordSets(parse, WorldAt(chain, n), chain[n].op) == Ok(chain[n].rw)
  {
    var tx := chain[n];
    assert EndorsedAt(parse, chain, tx);
    PrefixCommitted(chain, n);
    PrefixWorld(chain, n, tx.height);
    SimulatesAlike(parse, tx.op, WorldAt(chain, tx.height), WorldAt(chain, tx.height), tx.rw);
    FreshWorldsAgree(chain, tx.height, n, tx.rw);
    SimulatesAlike(parse, tx.op, WorldAt(chain, tx.height), WorldAt(chain, n), tx.rw);
  }

  lemma {:induction false} AppliesRecord(parse: Parser, w: Ledger, op: Op, rw: Sets, version: nat)
    requires RecordSets(parse, w, op) == Ok(rw)
    ensures Records(parse, w, op, Apply(w, rw, version))
  {
    var u := Apply(w, rw, version);
    forall l
      ensures At(u, l) == if l != RecordKey(op.id) then At(w, l)
                          else Some(Entry(Encoded(RecordOf(parse, op).value), version, {}))
    {
      assert At(u, l) == After(w, rw, version, l);
    }
  }

  /** The ledgers from a height on, and the calls between them. */
  function LedgersFrom(chain: Chain, start: nat): seq<Ledger>
    requires start <= |chain|
  {
    seq(|chain| - start + 1, i requires 0 <= i <= |chain| - start => WorldAt(chain, start + i))
  }

  function CallsFrom(chain: Chain, start: nat): seq<Op>
    requires start <= |chain|
  {
    seq(|chain| - start, i requires 0 <= i < |chain| - start => chain[start + i].op)
  }

  lemma {:induction false} RunHasLedgers(parse: Parser, chain: Chain, start: nat)
    requires Run(parse, chain, start)
    ensures Ledgers(parse, LedgersFrom(chain, start), CallsFrom(chain, start))
  {
    var ws, ops := LedgersFrom(chain, start), CallsFrom(chain, start);
    forall i | 0 <= i < |ops|
      ensures Records(parse, ws[i], ops[i], ws[i + 1])
    {
      CommittedIsAtomic(parse, chain, start, start + i);
      Step(chain, start + i);
      AppliesRecord(parse, WorldAt(chain, start + i), ops[i], chain[start + i].rw, start + i);
    }
  }

  /** No record is ever altered or removed, be it inherited or committed. */
  lemma {:induction false} AppendOnly(parse: Parser, chain: Chain, start: nat, m: nat, n: nat, l: Loc)
    requires Run(parse, chain, start) && start <= m <= n <= |chain| && l in WorldAt(chain, m)
    ensures Same(WorldAt(chain, m), WorldAt(chain, n), l)
  {
    RunHasLedgers(parse, chain, start);
    Kept(parse, LedgersFrom(chain, start), CallsFrom(chain, start), m - start, n - start, l);
  }

  lemma {:induction false} RecordStep(parse: Parser, chain: Chain, start: nat, n: nat)
    requires Run(parse, chain, start) && start <= n < |chain|
    ensures Records(parse, WorldAt(chain, n), chain[n].op, WorldAt(chain, n + 1))
  {
    RunHasLedgers(parse, chain, start);
    var ws, ops := LedgersFrom(chain, start), CallsFrom(chain, start);
    assert Records(parse, ws[n - start], ops[n - start], ws[n - start + 1]);
  }

  /** Each id is recorded at most once, whatever was endorsed concurrently, and never one
      the ledger started with. */
  lemma {:induction false} RecordedOnce(parse: Parser, chain: Chain, start: nat, i: nat, j: nat)
    requires Run(parse, chain, start) && start <= i <= j < |chain|
    ensures i < j ==> chain[i].op.id != chain[j].op.id
    ensures RecordKey(chain[j].op.id) !in WorldAt(chain, start)
  {
    RecordStep(parse, chain, start, i);
    RecordStep(parse, chain, start, j);
    if RecordKey(chain[j].op.id) in WorldAt(chain, start) {
      AppendOnly(parse, chain, start, start, j, RecordKey(chain[j].op.id));
    }
    if i < j {
      AppendOnly(parse, chain, start, i + 1, j, RecordKey(chain[i].op.id));
    }
  }

  /** A committed payment reads back, ever after, with the fields it was recorded with. */
  lemma {:induction false} ReadsBack(parse: Parser, chain: Chain, start: nat, i: nat, n: nat) returns (amount: real)
    requires Run(parse, chain, start) && start <= i < n <= |chain|
    ensures var op := chain[i].op;
            && op.id != "" && op.commitmentNumber != "" && op.documentHash != ""
            && parse(op.amountText) == Some(Finite(amount)) && amount > 0.0
            && TransactionAt(WorldAt(chain, n), op.id)
            == Ok(Transaction(op.id, op.agency, op.supplier, amount,
                              op.commitmentNumber, op.documentHash, op.digitalSignature, op.timestamp))
  {
    RecordStep(parse, chain, start, i);
    AppendOnly(parse, chain, start, i + 1, n, RecordKey(chain[i].op.id));
    var recorded := RecordOf(parse, chain[i].op).value;
    amount := recorded.amount;
    LegacyNamesRecover(recorded, NAMES);
  }

  /** What it is stored as: each field under its name of today. */
  lemma {:induction false} StoredForm(parse: Parser, chain: Chain, start: nat, i: nat, n: nat)
    returns (amount: real)
    requires Run(parse, chain, start) && start <= i < n <= |chain|
    ensures var op := chain[i].op;
            && parse(op.amountText) == Some(Finite(amount))
            && ValueAt(WorldAt(chain, n), RecordKey(op.id)) == Some(map[
                 Id := Text(op.id), Agency := Text(op.agency), Supplier := Text(op.supplier),
                 Amount := Numeric(amount), CommitmentNumber := Text(op.commitmentNumber),
                 DocumentHash := Text(op.documentHash), DigitalSignature := Text(op.digitalSignature),
                 Timestamp := Text(op.timestamp)])
  {
    RecordStep(parse, chain, start, i);
    amount := RecordOf(parse, chain[i].op).value.amount;
    AppendOnly(parse, chain, start, i + 1, n, RecordKey(chain[i].op.id));
  }

  /** An admissible payment under a free id, endorsed at the current height, is accepted
      whoever endorses it. */
  lemma {:induction false} AcceptedAtOnce(parse: Parser, chain: Chain, start: nat, op: Op, txId: string,
                                          endorsers: set<Org>) returns (tx: Tx<Op, Json>)
    requires Run(parse, chain, start) && !Used(chain, txId) && RecordKey(op.id) !in Replay(chain)
    requires RecordOf(parse, op).Some? && Admissible(RecordOf(parse, op).value)
    ensures tx.op == op && tx.id == txId && tx.endorsers == endorsers && Run(parse, chain + [tx], start)
  {
    var w := Replay(chain);
    assert chain[..|chain|] == chain;
    tx := Tx(txId, op, |chain|, endorsers, RecordSets(parse, w, op).value);
    SimulatesAlike(parse, op, w, w, tx.rw);
    var next := chain + [tx];
    assert next[..|chain|] == chain;
    forall j | start <= j < |next|
      ensures EndorsedAt(parse, next, next[j])
    {
      assert j < |chain| ==> EndorsedAt(parse, chain, chain[j]);
      PrefixWorld(next, |chain|, next[j].height);
    }
  }

  lemma {:induction false} InheritedDecodes(w: Ledger, records: map<string, Transaction>, id: string)
    requires Inherited(w, records) && id in records
    ensures RecordKey(id) in w && TransactionAt(w, id) == Ok(records[id])
  {
    var names :| Known(names) && StoresUnder(w, id, records[id], names);
    LegacyNamesRecover(records[id], names);
  }

  lemma {:induction false} SameReads(w: Ledger, u: Ledger, id: string)
    requires Same(w, u, RecordKey(id))
    ensures TransactionAt(w, id) == TransactionAt(u, id)
  {
  }

  /** And so does an inherited one, under whatever names its fields are stored. */
  lemma {:induction false} InheritedReadsBack(parse: Parser, chain: Chain, start: nat,
                                              records: map<string, Transaction>, id: string, n: nat)
    requires Run(parse, chain, start) && start <= n <= |chain|
    requires Inherited(WorldAt(chain, start), records) && id in records
    ensures TransactionAt(WorldAt(chain, n), id) == Ok(records[id])
  {
    InheritedDecodes(WorldAt(chain, start), records, id);
    AppendOnly(parse, chain, start, start, n, RecordKey(id));
    SameReads(WorldAt(chain, start), WorldAt(chain, n), id);
  }

  lemma {:induction false} NewCall(parse: Parser, chain: Chain, start: nat, records: map<string, Transaction>, i: nat,
                                   j: nat)
    requires Run(parse, chain, start) && HasKeys(WorldAt(chain, start), records) && start <= i <= j < |chain|
    ensures RecordOf(parse, chain[j].op).Some? && chain[j].op.id !in records
    ensures i < j ==> chain[i].op.id != chain[j].op.id
  {
    RecordStep(parse, chain, start, j);
    RecordedOnce(parse, chain, start, i, j);
    assert !IsKeyOf(RecordKey(chain[j].op.id), records);
  }

  lemma {:induction false} CallsAreRecordedOnce(parse: Parser, chain: Chain, start: nat,
                                                records: map<string, Transaction>, ops: seq<Op>)
    requires Run(parse, chain, start) && HasKeys(WorldAt(chain, start), records) && ops == CallsFrom(chain, start)
    ensures RecordedOnceIn(parse, records, ops)
  {
    forall i, j | 0 <= i <= j < |ops|
      ensures RecordOf(parse, ops[j]).Some? && ops[j].id !in records && (i < j ==> ops[i].id != ops[j].id)
    {
      NewCall(parse, chain, start, records, start + i, start + j);
    }
  }

  lemma {:induction false} LedgerEnds(chain: Chain, start: nat)
    requires start <= |chain|
    ensures LedgersFrom(chain, start)[0] == WorldAt(chain, start)
    ensures LedgersFrom(chain, start)[|CallsFrom(chain, start)|] == Replay(chain)
  {
    var n := |CallsFrom(chain, start)|;
    assert start + n == |chain| && chain[..start + n] == chain;
    assert LedgersFrom(chain, start)[n] == WorldAt(chain, start + n);
  }

  lemma {:induction false} LedgerHasTheKeys(parse: Parser, chain: Chain, start: nat, records: map<string, Transaction>,
                                            book: map<string, Transaction>)
    requires Run(parse, chain, start) && HasKeys(WorldAt(chain, start), records)
    requires IsBook(parse, records, CallsFrom(chain, start), book)
    ensures HasKeys(Replay(chain), book)
  {
    LedgerEnds(chain, start);
    RunHasLedgers(parse, chain, start);
    KeysOfTheBook(parse, LedgersFrom(chain, start), CallsFrom(chain, start), records, book);
  }

  lemma {:induction false} KeysOfTheBook(parse: Parser, ws: seq<Ledger>, ops: seq<Op>,
                                         records: map<string, Transaction>, book: map<string, Transaction>)
    requires Ledgers(parse, ws, ops) && HasKeys(ws[0], records) && IsBook(parse, records, ops, book)
    ensures HasKeys(ws[|ops|], book)
  {
    forall l
      ensures l in ws[|ops|] <==> IsKeyOf(l, book)
    {
      KeyOrigin(parse, ws, ops, |ops|, l);
      assert l in ws[0] <==> IsKeyOf(l, records);
    }
  }

  lemma {:induction false} ReadsAsRecorded(parse: Parser, chain: Chain, start: nat, i: nat, op: Op, w: Ledger)
    requires Run(parse, chain, start) && start <= i < |chain| && op == chain[i].op && w == WorldAt(chain, |chain|)
    ensures RecordOf(parse, op).Some? && TransactionAt(w, op.id) == Ok(RecordOf(parse, op).value)
  {
    var amount := ReadsBack(parse, chain, start, i, |chain|);
  }

  /** What every inherited record, and every recorded payment, reads as. */
  ghost predicate AllRead(parse: Parser, w: Ledger, records: map<string, Transaction>, ops: seq<Op>) {
    && (forall id :: id in records ==> TransactionAt(w, id) == Ok(records[id]))
    && (forall i :: 0 <= i < |ops| ==>
          RecordOf(parse, ops[i]).Some? && TransactionAt(w, ops[i].id) == Ok(RecordOf(parse, ops[i]).value))
  }

  lemma {:induction false} AllReadInHistory(parse: Parser, chain: Chain, start: nat, records: map<string, Transaction>)
    requires Run(parse, chain, start) && Inherited(WorldAt(chain, start), records)
    ensures AllRead(parse, WorldAt(chain, |chain|), records, CallsFrom(chain, start))
  {
    forall id | id in records {
      InheritedReadsBack(parse, chain, start, records, id, |chain|);
    }
    var ops, w := CallsFrom(chain, start), WorldAt(chain, |chain|);
    forall i | 0 <= i < |ops|
      ensures RecordOf(parse, ops[i]).Some? && TransactionAt(w, ops[i].id) == Ok(RecordOf(parse, ops[i]).value)
    {
      ReadsAsRecorded(parse, chain, start, start + i, ops[i], w);
    }
  }

  lemma {:induction false} BookReads(parse: Parser, w: Ledger, records: map<string, Transaction>, ops: seq<Op>,
                                     book: map<string, Transaction>, id: string)
    requires AllRead(parse, w, records, ops) && IsBook(parse, records, ops, book) && id in book
    ensures TransactionAt(w, id) == Ok(book[id])
  {
    if id !in records {
      var i :| 0 <= i < |ops| && ops[i].id == id;
    }
  }

  /** `ListAllTransactions` answers with every record exactly once and nothing else, in key
      order: all the inherited ones and one for each committed payment, each with the
      fields it was recorded with. */
  lemma {:induction false} ListIsTheHistory(parse: Parser, chain: Chain, start: nat, records: map<string, Transaction>,
                                            rows: seq<Loc>) returns (book: map<string, Transaction>)
    requires Run(parse, chain, start) && Inherited(WorldAt(chain, start), records)
    requires ListsRecords(Replay(chain), rows)
    ensures InKeyOrder(rows) && |rows| == |book| == |records| + |chain| - start
    ensures forall l :: l in rows <==> IsKeyOf(l, book)
    ensures forall id :: id in book ==> TransactionAt(Replay(chain), id) == Ok(book[id])
    ensures IsBook(parse, records, CallsFrom(chain, start), book)
  {
    book := Book(parse, records, CallsFrom(chain, start));
    CallsAreRecordedOnce(parse, chain, start, records, CallsFrom(chain, start));
    BookIsComplete(parse, records, CallsFrom(chain, start), book);
    LedgerHasTheKeys(parse, chain, start, records, book);
    ListsTheBook(Replay(chain), book, rows);
    AllReadInHistory(parse, chain, start, records);
    assert chain[..|chain|] == chain;
    forall id | id in book
      ensures TransactionAt(Replay(chain), id) == Ok(book[id])
    {
      BookReads(parse, Replay(chain), records, CallsFrom(chain, start), book, id);
    }
  }

  /** Key order leaves one answer only. */
  lemma {:induction false} KeyOrderIsUnique(rows: seq<Loc>, others: seq<Loc>)
    requires InKeyOrder(rows) && InKeyOrder(others) && forall l :: l in rows <==> l in others
    ensures rows == others
    decreases |rows|
  {
    if rows == [] {
      NoElements(others);
    } else {
      assert rows[0] in rows;
      assert others != [];
      SameFirst(rows, others);
      forall l
        ensures l in rows[1..] <==> l in others[1..]
      {
        RestOf(rows, l);
        RestOf(others, l);
      }
      KeyOrderIsUnique(rows[1..], others[1..]);
      assert rows == [rows[0]] + rows[1..] && others == [others[0]] + others[1..];
    }
  }

  lemma {:induction false} NoElements(rows: seq<Loc>)
    ensures rows == [] || rows[0] in rows
  {
  }

  lemma {:induction false} RestOf(rows: seq<Loc>, l: Loc)
    requires rows != [] && InKeyOrder(rows)
    ensures l in rows[1..] <==> l in rows && l != rows[0]
  {
    if l in rows[1..] {
      var i :| 0 <= i < |rows[1..]| && rows[1..][i] == l;
      assert KeyOrder(rows[0], rows[i + 1]);
      BeforeTotal(l.key.name, l.key.name);
    }
  }

  lemma {:induction false} SameFirst(rows: seq<Loc>, others: seq<Loc>)
    requires rows != [] && others != []
    requires InKeyOrder(rows) && InKeyOrder(others) && forall l :: l in rows <==> l in others
    ensures rows[0] == others[0]
  {
    assert rows[0] in others && others[0] in rows;
    if rows[0] != others[0] {
      BeforeTotal(rows[0].key.name, others[0].key.name);
    }
  }
}
