/** The LEDGOV contract: government payments, recorded once and for good. */
module Ledgov {
  import opened Wrappers
  import opened Fabric

  /** A 64-bit float as `ParseFloat` gives it: it reads "NaN" and "Inf" too. */
  datatype Number = Finite(value: real) | Infinite(positive: bool) | NotANumber

  type Parser = string -> Option<Number>

  datatype Transaction = Transaction(
    id: string, agency: string, supplier: string, amount: real,
    commitmentNumber: string, documentHash: string, digitalSignature: string, timestamp: string)

  /** What stored bytes hold: a JSON object's fields by name. */
  datatype Field = Text(text: string) | Numeric(number: real) | Null | Other

  /** The payload's field names, English and legacy, each as its JSON tag spells it; any
      other name is unlisted. */
  datatype FieldName =
    | Id | Timestamp
    | Agency | Orgao
    | Supplier | Fornecedor
    | Amount | Valor
    | CommitmentNumber | NumEmpenho
    | DocumentHash | HashDocumento
    | DigitalSignature | Assinatura | Descricao
    | Unlisted(name: string)

  type Json = map<FieldName, Field>

  datatype Fault =
    | NoCommitment | NoHash | InvalidAmount | AmountNotPositive | AlreadyRecorded | NotEncodable | EmptyKey
    | NotFound | NotATransaction

  datatype Op = RecordTransaction(
    id: string, agency: string, supplier: string, amountText: string,
    commitmentNumber: string, documentHash: string, digitalSignature: string, timestamp: string)

  type Ledger = World<Json>
  type Sets = RWSet<Json>
  type Chain = seq<Tx<Op, Json>>

  // ---- Stored form ----

  /** The field names a record can be stored under: today's, or the legacy ones. */
  datatype Names = Names(
    agency: FieldName, supplier: FieldName, amount: FieldName, commitmentNumber: FieldName, documentHash: FieldName,
    digitalSignature: FieldName)

  const NAMES := Names(Agency, Supplier, Amount, CommitmentNumber, DocumentHash, DigitalSignature)

  predicate Known(names: Names) {
    && names.agency in {Agency, Orgao} && names.supplier in {Supplier, Fornecedor}
    && names.amount in {Amount, Valor} && names.commitmentNumber in {CommitmentNumber, NumEmpenho}
    && names.documentHash in {DocumentHash, HashDocumento}
    && names.digitalSignature in {DigitalSignature, Assinatura, Descricao}
  }

  function StoredUnder(t: Transaction, names: Names): Json {
    map[Id := Text(t.id), names.agency := Text(t.agency), names.supplier := Text(t.supplier),
        names.amount := Numeric(t.amount), names.commitmentNumber := Text(t.commitmentNumber),
        names.documentHash := Text(t.documentHash), names.digitalSignature := Text(t.digitalSignature),
        Timestamp := Text(t.timestamp)]
  }

  function Encoded(t: Transaction): Json {
    StoredUnder(t, NAMES)
  }

  predicate Fits(name: FieldName, field: Field) {
    match name
    case Unlisted(_) => true
    case Amount => field.Numeric? || field.Null?
    case Valor => field.Numeric? || field.Null?
    case _ => field.Text? || field.Null?
  }

  /** Every listed field holds a value of its type, or null. */
  predicate Decodable(data: Json) {
    forall name :: name in data ==> Fits(name, data[name])
  }

  /** A text field of the payload, empty when it is missing. */
  function TextOf(data: Json, name: FieldName): string {
    if name in data && data[name].Text? then data[name].text else ""
  }

  function NumberOf(data: Json, name: FieldName): real {
    if name in data && data[name].Numeric? then data[name].number else 0.0
  }

  function FirstNonEmptyOf(values: seq<string>): (first: string)
    ensures first != "" ==>
      exists i :: 0 <= i < |values| && values[i] == first && forall k :: 0 <= k < i ==> values[k] == ""
    ensures first == "" <==> forall i :: 0 <= i < |values| ==> values[i] == ""
  {
    if values == [] then "" else if values[0] != "" then values[0] else FirstNonEmptyOf(values[1..])
  }

  method FirstNonEmpty(values: seq<string>) returns (first: string)
    ensures first == FirstNonEmptyOf(values)
  {
    for i := 0 to |values|
      invariant FirstNonEmptyOf(values) == FirstNonEmptyOf(values[i..])
    {
      if values[i] != "" {
        return values[i];
      }
    }
    return "";
  }

  function Decoded(data: Json): Result<Transaction, Fault> {
    if !Decodable(data) then Err(NotATransaction)
    else
      Ok(Transaction(
        TextOf(data, Id),
        FirstNonEmptyOf([TextOf(data, Agency), TextOf(data, Orgao)]),
        FirstNonEmptyOf([TextOf(data, Supplier), TextOf(data, Fornecedor)]),
        if NumberOf(data, Amount) == 0.0 then NumberOf(data, Valor) else NumberOf(data, Amount),
        FirstNonEmptyOf([TextOf(data, CommitmentNumber), TextOf(data, NumEmpenho)]),
        FirstNonEmptyOf([TextOf(data, DocumentHash), TextOf(data, HashDocumento)]),
        FirstNonEmptyOf([TextOf(data, DigitalSignature), TextOf(data, Assinatura), TextOf(data, Descricao)]),
        TextOf(data, Timestamp)))
  }

  /** A transaction being filled in. */
  class Target {
    var value: Transaction

    constructor ()
      ensures value == Transaction("", "", "", 0.0, "", "", "", "")
    {
      value := Transaction("", "", "", 0.0, "", "", "", "");
    }

    method UnmarshalJSON(data: Json) returns (fault: Option<Fault>)
      modifies this
      ensures match Decoded(data)
              case Err(e) => fault == Some(e) && value == old(value)
              case Ok(t) => fault.None? && value == t
    {
      if !Decodable(data) {
        return Some(NotATransaction);
      }
      value := value.(id := TextOf(data, Id));
      var agency := FirstNonEmpty([TextOf(data, Agency), TextOf(data, Orgao)]);
      value := value.(agency := agency);
      var supplier := FirstNonEmpty([TextOf(data, Supplier), TextOf(data, Fornecedor)]);
      value := value.(supplier := supplier);
      value := value.(amount := NumberOf(data, Amount));
      if value.amount == 0.0 {
        value := value.(amount := NumberOf(data, Valor));
      }
      var commitment := FirstNonEmpty([TextOf(data, CommitmentNumber), TextOf(data, NumEmpenho)]);
      var hash := FirstNonEmpty([TextOf(data, DocumentHash), TextOf(data, HashDocumento)]);
      var signature := FirstNonEmpty([
        TextOf(data, DigitalSignature), TextOf(data, Assinatura), TextOf(data, Descricao)]);
      value := value.(commitmentNumber := commitment, documentHash := hash, digitalSignature := signature);
      value := value.(timestamp := TextOf(data, Timestamp));
      return None;
    }
  }

  lemma {:induction false} FirstOfTwo(a: string, b: string)
    ensures FirstNonEmptyOf([a, b]) == if a != "" then a else b
  {
    assert [a, b][1..] == [b];
  }

  lemma {:induction false} FirstOfThree(a: string, b: string, c: string)
    ensures FirstNonEmptyOf([a, b, c]) == if a != "" then a else if b != "" then b else c
  {
    assert [a, b, c][1..] == [b, c];
    FirstOfTwo(b, c);
  }

  lemma {:induction false} StoredText(t: Transaction, names: Names, name: FieldName)
    requires Known(names)
    ensures TextOf(StoredUnder(t, names), name) ==
            if name == Id then t.id else if name == Timestamp then t.timestamp
            else if name == names.agency then t.agency else if name == names.supplier then t.supplier
            else if name == names.commitmentNumber then t.commitmentNumber
            else if name == names.documentHash then t.documentHash
            else if name == names.digitalSignature then t.digitalSignature else ""
  {
  }

  lemma {:induction false} PairsRecover(t: Transaction, names: Names)
    requires Known(names)
    ensures var data := StoredUnder(t, names);
            && FirstNonEmptyOf([TextOf(data, Agency), TextOf(data, Orgao)]) == t.agency
            && FirstNonEmptyOf([TextOf(data, Supplier), TextOf(data, Fornecedor)]) == t.supplier
  {
    StoredText(t, names, Agency);
    StoredText(t, names, Orgao);
    StoredText(t, names, Supplier);
    StoredText(t, names, Fornecedor);
    var data := StoredUnder(t, names);
    FirstOfTwo(TextOf(data, Agency), TextOf(data, Orgao));
    FirstOfTwo(TextOf(data, Supplier), TextOf(data, Fornecedor));
  }

  lemma {:induction false} OtherPairsRecover(t: Transaction, names: Names)
    requires Known(names)
    ensures var data := StoredUnder(t, names);
            && FirstNonEmptyOf([TextOf(data, CommitmentNumber), TextOf(data, NumEmpenho)]) == t.commitmentNumber
            && FirstNonEmptyOf([TextOf(data, DocumentHash), TextOf(data, HashDocumento)]) == t.documentHash
  {
    StoredText(t, names, CommitmentNumber);
    StoredText(t, names, NumEmpenho);
    StoredText(t, names, DocumentHash);
    StoredText(t, names, HashDocumento);
    var data := StoredUnder(t, names);
    FirstOfTwo(TextOf(data, CommitmentNumber), TextOf(data, NumEmpenho));
    FirstOfTwo(TextOf(data, DocumentHash), TextOf(data, HashDocumento));
  }

  lemma {:induction false} SignatureRecovers(t: Transaction, names: Names)
    requires Known(names)
    ensures var data := StoredUnder(t, names);
            var texts := [TextOf(data, DigitalSignature), TextOf(data, Assinatura), TextOf(data, Descricao)];
            FirstNonEmptyOf(texts) == t.digitalSignature
  {
    StoredText(t, names, DigitalSignature);
    StoredText(t, names, Assinatura);
    StoredText(t, names, Descricao);
    var data := StoredUnder(t, names);
    FirstOfThree(TextOf(data, DigitalSignature), TextOf(data, Assinatura), TextOf(data, Descricao));
  }

  lemma {:induction false} StoredNumber(t: Transaction, names: Names)
    requires Known(names)
    ensures NumberOf(StoredUnder(t, names), Amount) == if names.amount == Amount then t.amount else 0.0
    ensures NumberOf(StoredUnder(t, names), Valor) == if names.amount == Valor then t.amount else 0.0
  {
  }

  lemma {:induction false} StoredDecodable(t: Transaction, names: Names)
    requires Known(names)
    ensures Decodable(StoredUnder(t, names))
  {
  }

  /** A record comes back as it was, whichever of its fields were stored under their
      legacy names. */
  lemma {:induction false} LegacyNamesRecover(t: Transaction, names: Names)
    requires Known(names)
    ensures Decoded(StoredUnder(t, names)) == Ok(t)
  {
    StoredDecodable(t, names);
    StoredText(t, names, Id);
    StoredText(t, names, Timestamp);
    StoredNumber(t, names);
    PairsRecover(t, names);
    OtherPairsRecover(t, names);
    SignatureRecovers(t, names);
  }

  lemma {:induction false} TodaysPair(t: Transaction, other: Json, today: FieldName, legacy: FieldName)
    requires today in Encoded(t) && legacy !in Encoded(t)
    ensures FirstNonEmptyOf([TextOf(other + Encoded(t), today), TextOf(other + Encoded(t), legacy)])
         == OrElse(TextOf(Encoded(t), today), TextOf(other, legacy))
  {
    FirstOfTwo(TextOf(other + Encoded(t), today), TextOf(other + Encoded(t), legacy));
  }

  lemma {:induction false} TodaysSignature(t: Transaction, other: Json)
    ensures var data := other + Encoded(t);
            var texts := [TextOf(data, DigitalSignature), TextOf(data, Assinatura), TextOf(data, Descricao)];
            var legacy := OrElse(TextOf(other, Assinatura), TextOf(other, Descricao));
            FirstNonEmptyOf(texts) == OrElse(t.digitalSignature, legacy)
  {
    var data := other + Encoded(t);
    FirstOfThree(TextOf(data, DigitalSignature), TextOf(data, Assinatura), TextOf(data, Descricao));
  }

  lemma {:induction false} TodaysRest(t: Transaction, other: Json)
    requires Decodable(other)
    ensures var data := other + Encoded(t);
            && Decodable(data) && TextOf(data, Id) == t.id && TextOf(data, Timestamp) == t.timestamp
            && NumberOf(data, Amount) == t.amount && NumberOf(data, Valor) == NumberOf(other, Valor)
  {
    StoredDecodable(t, NAMES);
  }

  function OrElse(text: string, other: string): string {
    if text != "" then text else other
  }

  /** Where a record also has legacy fields, today's fields win unless they are empty. */
  lemma {:induction false} TodaysNamesWin(t: Transaction, other: Json)
    requires Decodable(other)
    ensures Decoded(other + Encoded(t)).Ok?
    ensures var r := Decoded(other + Encoded(t)).value;
            && r.id == t.id && r.timestamp == t.timestamp
            && r.agency == OrElse(t.agency, TextOf(other, Orgao))
            && r.supplier == OrElse(t.supplier, TextOf(other, Fornecedor))
            && r.amount == (if t.amount != 0.0 then t.amount else NumberOf(other, Valor))
            && r.commitmentNumber == OrElse(t.commitmentNumber, TextOf(other, NumEmpenho))
            && r.documentHash == OrElse(t.documentHash, TextOf(other, HashDocumento))
            && r.digitalSignature
            == OrElse(t.digitalSignature, OrElse(TextOf(other, Assinatura), TextOf(other, Descricao)))
  {
    TodaysRest(t, other);
    TodaysPair(t, other, Agency, Orgao);
    TodaysPair(t, other, Supplier, Fornecedor);
    TodaysPair(t, other, CommitmentNumber, NumEmpenho);
    TodaysPair(t, other, DocumentHash, HashDocumento);
    TodaysSignature(t, other);
  }

  /** Whether a field's value can be read under its name: text under the names of texts, a
      number under the names of numbers, null and anything unlisted always. */
  predicate Misplaced(data: Json, name: FieldName) {
    name in data && !data[name].Null? && !name.Unlisted? &&
    if name in {Amount, Valor} then !data[name].Numeric? else !data[name].Text?
  }

  /** Data is unreadable exactly when a listed field has a value of another type. */
  lemma {:induction false} FailsExactlyOnWrongType(data: Json)
    ensures Decoded(data) == Err(NotATransaction) <==> exists name :: Misplaced(data, name)
    ensures Decoded(data).Err? ==> Decoded(data) == Err(NotATransaction)
  {
    if !Decodable(data) {
      var name :| name in data && !Fits(name, data[name]);
      assert Misplaced(data, name);
    }
    if name :| Misplaced(data, name) {
      assert !Fits(name, data[name]);
    }
  }

  lemma {:induction false} SameFields(data: Json, other: Json)
    requires Decodable(data) && Decodable(other)
    requires forall name: FieldName :: !name.Unlisted? ==> TextOf(data, name) == TextOf(other, name)
    requires forall name: FieldName :: !name.Unlisted? ==> NumberOf(data, name) == NumberOf(other, name)
    ensures Decoded(data) == Decoded(other)
  {
  }

  /** A field that is null, or is not one of the listed ones, counts as missing. */
  lemma {:induction false} NullIsMissing(data: Json, name: FieldName, value: Field)
    requires value.Null? || name.Unlisted?
    ensures Decoded(data[name := value]) == Decoded(data - {name})
  {
    var full, less := data[name := value], data - {name};
    assert Decodable(full) <==> Decodable(less) by {
      assert forall other :: other in less ==> other in full && full[other] == less[other];
      assert forall other :: other in full && other != name ==> other in less;
    }
    if Decodable(full) {
      SameFields(full, less);
    }
  }

  // ---- Operations ----

  function RecordKey(id: string): Loc {
    Loc(Channel, Plain(id))
  }

  function Recorded(op: Op, amount: real): Transaction {
    Transaction(op.id, op.agency, op.supplier, amount,
                op.commitmentNumber, op.documentHash, op.digitalSignature, op.timestamp)
  }

  predicate AtMostZero(n: Number) {
    match n
    case Finite(value) => value <= 0.0
    case Infinite(positive) => !positive
    case NotANumber => false
  }

  /** A number that is not finite gets past the check on its sign and fails to encode. */
  function RecordSets(parse: Parser, w: Ledger, op: Op): Result<Sets, Fault> {
    if op.commitmentNumber == "" then Err(NoCommitment)
    else if op.documentHash == "" then Err(NoHash)
    else
      match parse(op.amountText)
      case None => Err(InvalidAmount)
      case Some(amount) =>
        if AtMostZero(amount) then Err(AmountNotPositive)
        else if RecordKey(op.id) in w then Err(AlreadyRecorded)
        else if !amount.Finite? then Err(NotEncodable)
        else if op.id == "" then Err(EmptyKey)
        else Ok(RWSet(map[RecordKey(op.id) := VersionAt(w, RecordKey(op.id))], map[],
                      map[RecordKey(op.id) := Some(Encoded(Recorded(op, amount.value)))], map[]))
  }

  method RecordTransaction(parse: Parser, stub: Stub<Json>, op: Op) returns (r: Result<(), Fault>)
    requires stub.rw == Nothing()
    modifies stub
    ensures match RecordSets(parse, stub.world, op)
            case Err(e) => r == Err(e)
            case Ok(rw) => r == Ok(()) && stub.rw == rw
  {
    if op.commitmentNumber == "" {
      return Err(NoCommitment);
    }
    if op.documentHash == "" {
      return Err(NoHash);
    }
    var amount := parse(op.amountText);
    if amount.None? {
      return Err(InvalidAmount);
    }
    if AtMostZero(amount.value) {
      return Err(AmountNotPositive);
    }
    var existing := stub.GetState(RecordKey(op.id));
    if existing.Some? {
      return Err(AlreadyRecorded);
    }
    if !amount.value.Finite? {
      return Err(NotEncodable);
    }
    var transaction := Recorded(op, amount.value.value);
    if op.id == "" {
      return Err(EmptyKey);
    }
    stub.PutState(RecordKey(op.id), Encoded(transaction));
    r := Ok(());
  }

  function TransactionAt(w: Ledger, id: string): Result<Transaction, Fault> {
    TransactionUnder(w, RecordKey(id))
  }

  function TransactionUnder(w: Ledger, l: Loc): Result<Transaction, Fault> {
    match ValueAt(w, l)
    case None => Err(NotFound)
    case Some(data) => Decoded(data)
  }

  method GetTransaction(stub: Stub<Json>, id: string) returns (r: Result<Transaction, Fault>)
    modifies stub
    ensures r == TransactionAt(stub.world, id)
    ensures RecordKey(id) !in stub.world <==> r == Err(NotFound)
  {
    var data := stub.GetState(RecordKey(id));
    if data.None? {
      return Err(NotFound);
    }
    var transaction := new Target();
    var fault := transaction.UnmarshalJSON(data.value);
    if fault.Some? {
      return Err(fault.value);
    }
    r := Ok(transaction.value);
  }

  /** `rows` are the record keys of a world, in key order. */
  ghost predicate ListsRecords(w: Ledger, rows: seq<Loc>) {
    Lists(rows, Scan(w, PlainKeys(Channel)).Keys) && InKeyOrder(rows)
  }

  /** The keys the answer follows are returned beside it. */
  method ListAllTransactions(stub: Stub<Json>) returns (r: Result<seq<Transaction>, Fault>, ghost rows: seq<Loc>)
    modifies stub
    ensures ListsRecords(stub.world, rows)
    ensures r.Err? <==> exists l :: l in rows && TransactionUnder(stub.world, l).Err?
    ensures r.Ok? ==> |r.value| == |rows|
    ensures r.Ok? ==> forall i :: 0 <= i < |rows| ==> TransactionUnder(stub.world, rows[i]) == Ok(r.value[i])
  {
    var keys := stub.GetStateByRange(PlainKeys(Channel));
    rows := keys;
    var transactions: seq<Transaction> := [];
    for i := 0 to |keys|
      invariant |transactions| == i
      invariant forall k :: 0 <= k < i ==> TransactionUnder(stub.world, rows[k]) == Ok(transactions[k])
    {
      assert keys[i] in Scan(stub.world, PlainKeys(Channel)).Keys;
      var transaction := new Target();
      var fault := transaction.UnmarshalJSON(stub.world[keys[i]].value);
      assert keys[i] in rows;
      if fault.Some? {
        return Err(fault.value), rows;
      }
      transactions := transactions + [transaction.value];
    }
    r := Ok(transactions);
  }

  predicate EndorsedAt(parse: Parser, chain: Chain, tx: Tx<Op, Json>) {
    tx.height <= |chain| && RecordSets(parse, WorldAt(chain, tx.height), tx.op) == Ok(tx.rw)
  }

  /** What an earlier version of the contract may have left: each record under its own id,
      its fields under today's names or the legacy ones. */
  ghost predicate Inherited(w: Ledger, records: map<string, Transaction>) {
    && HasKeys(w, records)
    && (forall id :: id in records ==> exists names :: Known(names) && StoresUnder(w, id, records[id], names))
  }

  predicate IsKeyOf(l: Loc, book: map<string, Transaction>) {
    Matches(PlainKeys(Channel), l) && l.key.name in book
  }

  ghost predicate HasKeys(w: Ledger, book: map<string, Transaction>) {
    forall l :: l in w <==> IsKeyOf(l, book)
  }

  predicate StoresUnder(w: Ledger, id: string, t: Transaction, names: Names) {
    RecordKey(id) in w && w[RecordKey(id)].value == StoredUnder(t, names)
  }

  /** Any history of this contract from height `start` on; what came before is whatever
      left the ledger as it then was. A new ledger starts at height 0. */
  ghost predicate Run(parse: Parser, chain: Chain, start: nat) {
    && Committed(chain) && start <= |chain|
    && forall j {:trigger EndorsedAt(parse, chain, chain[j])} ::
         start <= j < |chain| ==> EndorsedAt(parse, chain, chain[j])
  }
}
