/** The high-throughput contract: a variable kept as delta rows, and, for comparison, as
    one row that every update rewrites. */
module HighThroughput {
  import opened Wrappers
  import opened Fabric
  import opened CompositeKeys
  import opened NumberText

  const DELTA_INDEX := "varName~op~value~txID"

  datatype Fault = NotANumber | BadOperator | BadKey | NoVariable | BadRow

  datatype Op =
    | Update(name: string, delta: string, operator: string)
    | Prune(name: string)
    | Delete(name: string)
    | UpdateStandard(name: string, delta: string, operator: string)
    | DelStandard(name: string)

  type Ledger = World<string>
  type Sets = RWSet<string>
  type Chain = seq<Tx<Op, string>>

  function RowKey(name: string, operator: string, delta: string, txId: string): Loc {
    Loc(Channel, Composite(DELTA_INDEX, [name, operator, delta, txId]))
  }

  function RowsOf(name: string): Query {
    PartialKey(Channel, DELTA_INDEX, [name])
  }

  function Rows(w: Ledger, name: string): set<Loc> {
    Scan(w, RowsOf(name)).Keys
  }

  function Signed(value: int, operator: string): Option<int> {
    if operator == "+" then Some(value) else if operator == "-" then Some(-value) else None
  }

  /** What a row adds to its variable, when the row can be read. */
  function Amount(t: Numerals, row: Loc): Option<int> {
    match row.key
    case Composite(_, parts) =>
      if |parts| < 3 || t.parse(parts[2]).None? then None else Signed(t.parse(parts[2]).value, parts[1])
    case Plain(_) => None
  }

  predicate Readable(t: Numerals, rows: set<Loc>) {
    forall row :: row in rows ==> Amount(t, row).Some?
  }

  /** The sum over a set of rows, in whatever order they are taken. */
  ghost function Total(t: Numerals, rows: set<Loc>): int
    requires Readable(t, rows)
  {
    if rows == {} then 0
    else
      var row :| row in rows;
      Amount(t, row).value + Total(t, rows - {row})
  }

  lemma {:induction false} TotalTakes(t: Numerals, rows: set<Loc>, row: Loc)
    requires Readable(t, rows) && row in rows
    ensures Total(t, rows) == Amount(t, row).value + Total(t, rows - {row})
    decreases rows
  {
    var first :| first in rows && Total(t, rows) == Amount(t, first).value + Total(t, rows - {first});
    if first != row {
      TotalTakes(t, rows - {first}, row);
      TotalTakes(t, rows - {row}, first);
      assert rows - {first} - {row} == rows - {row} - {first};
    }
  }

  // ---- Going through rows ----

  function Firsts(rows: seq<Loc>, i: nat): set<Loc>
    requires i <= |rows|
  {
    set k | 0 <= k < i :: rows[k]
  }

  function Deletions(rows: set<Loc>): map<Loc, Option<string>> {
    map row | row in rows :: None
  }

  lemma {:induction false} OneMore(rows: seq<Loc>, i: nat, keys: set<Loc>)
    requires Lists(rows, keys) && i < |rows|
    ensures rows[i] in keys && rows[i] !in Firsts(rows, i) && Firsts(rows, i + 1) == Firsts(rows, i) + {rows[i]}
    ensures Deletions(Firsts(rows, i + 1)) == Deletions(Firsts(rows, i))[rows[i] := None]
  {
    assert rows[i] in rows;
  }

  lemma {:induction false} OneMoreAmount(t: Numerals, rows: seq<Loc>, i: nat, keys: set<Loc>)
    requires Lists(rows, keys) && i < |rows| && Readable(t, Firsts(rows, i)) && Amount(t, rows[i]).Some?
    ensures Readable(t, Firsts(rows, i + 1))
    ensures Total(t, Firsts(rows, i + 1)) == Total(t, Firsts(rows, i)) + Amount(t, rows[i]).value
  {
    OneMore(rows, i, keys);
    TotalTakes(t, Firsts(rows, i + 1), rows[i]);
    assert Firsts(rows, i + 1) - {rows[i]} == Firsts(rows, i);
  }

  lemma {:induction false} AllOfThem(rows: seq<Loc>, keys: set<Loc>)
    requires Lists(rows, keys)
    ensures Firsts(rows, |rows|) == keys && (rows == [] <==> keys == {})
  {
    assert rows != [] ==> rows[0] in rows;
    assert forall l :: l in keys ==> l in rows;
  }

  // ---- The delta-row form ----

  function UpdateRow(t: Numerals, txId: string, name: string, delta: string, operator: string): Result<Loc, Fault> {
    if t.parse(delta).None? then Err(NotANumber)
    else if operator != "+" && operator != "-" then Err(BadOperator)
    else if !ValidAttributes([DELTA_INDEX, name, operator, delta, txId]) then Err(BadKey)
    else Ok(RowKey(name, operator, delta, txId))
  }

  method Update(t: Numerals, stub: Stub<string>, name: string, delta: string, operator: string)
    returns (r: Result<(), Fault>)
    modifies stub
    ensures match UpdateRow(t, stub.txId, name, delta, operator)
            case Err(e) => r == Err(e)
            case Ok(row) => r == Ok(()) && stub.rw == old(stub.rw).(writes := old(stub.rw.writes)[row := Some("\0")])
    ensures t.parse(delta).None? <==> r == Err(NotANumber)
    ensures t.parse(delta).Some? && operator !in {"+", "-"} <==> r == Err(BadOperator)
  {
    if t.parse(delta).None? {
      return Err(NotANumber);
    }
    if operator != "+" && operator != "-" {
      return Err(BadOperator);
    }
    assert [DELTA_INDEX] + [name, operator, delta, stub.txId] == [DELTA_INDEX, name, operator, delta, stub.txId];
    var key := CreateCompositeKey(DELTA_INDEX, [name, operator, delta, stub.txId]);
    if key.None? {
      return Err(BadKey);
    }
    stub.PutState(RowKey(name, operator, delta, stub.txId), "\0");
    r := Ok(());
  }

  /** What a committed world answers to `Get`. */
  ghost function ValueOf(t: Numerals, w: Ledger, name: string): Result<string, Fault> {
    if !ValidAttributes([DELTA_INDEX, name]) then Err(BadKey)
    else if Rows(w, name) == {} then Err(NoVariable)
    else if !Readable(t, Rows(w, name)) then Err(BadRow)
    else Ok(t.format(Total(t, Rows(w, name))))
  }

  method Get(t: Numerals, stub: Stub<string>, name: string) returns (r: Result<string, Fault>)
    modifies stub
    ensures r == ValueOf(t, stub.world, name)
    ensures !ValidAttributes([DELTA_INDEX, name]) <==> r == Err(BadKey)
    ensures ValidAttributes([DELTA_INDEX, name]) && Rows(stub.world, name) == {} <==> r == Err(NoVariable)
  {
    assert [DELTA_INDEX] + [name] == [DELTA_INDEX, name];
    var prefix := CreateCompositeKey(DELTA_INDEX, [name]);
    if prefix.None? {
      return Err(BadKey);
    }
    var rows := stub.GetStateByRange(RowsOf(name));
    AllOfThem(rows, Rows(stub.world, name));
    if |rows| == 0 {
      return Err(NoVariable);
    }
    var finalVal := 0;
    for i := 0 to |rows|
      invariant Readable(t, Firsts(rows, i)) && finalVal == Total(t, Firsts(rows, i))
    {
      OneMore(rows, i, Rows(stub.world, name));
      var amount := Amount(t, rows[i]);
      if amount.None? {
        return Err(BadRow);
      }
      OneMoreAmount(t, rows, i, Rows(stub.world, name));
      finalVal := finalVal + amount.value;
    }
    r := Ok(t.format(finalVal));
  }

  ghost function PruneSets(t: Numerals, txId: string, w: Ledger, name: string): Result<Sets, Fault> {
    var rows := Rows(w, name);
    if !ValidAttributes([DELTA_INDEX, name]) then Err(BadKey)
    else if rows == {} then Err(NoVariable)
    else if !Readable(t, rows) then Err(BadRow)
    else
      match UpdateRow(t, txId, name, t.format(Total(t, rows)), "+")
      case Err(e) => Err(e)
      case Ok(row) => Ok(RWSet(map[], map[RowsOf(name) := Scan(w, RowsOf(name))],
                               Deletions(rows)[row := Some("\0")], map[]))
  }

  method Prune(t: Numerals, stub: Stub<string>, name: string) returns (r: Result<(), Fault>)
    requires stub.rw == Nothing()
    modifies stub
    ensures match PruneSets(t, stub.txId, stub.world, name)
            case Err(e) => r == Err(e)
            case Ok(rw) => r == Ok(()) && stub.rw == rw
    ensures ValidAttributes([DELTA_INDEX, name]) && Rows(stub.world, name) == {} <==> r == Err(NoVariable)
  {
    assert [DELTA_INDEX] + [name] == [DELTA_INDEX, name];
    var prefix := CreateCompositeKey(DELTA_INDEX, [name]);
    if prefix.None? {
      return Err(BadKey);
    }
    var rows := stub.GetStateByRange(RowsOf(name));
    AllOfThem(rows, Rows(stub.world, name));
    if |rows| == 0 {
      return Err(NoVariable);
    }
    ghost var scanned := stub.rw;
    var finalVal := 0;
    for i := 0 to |rows|
      invariant Readable(t, Firsts(rows, i)) && finalVal == Total(t, Firsts(rows, i))
      invariant stub.rw == scanned.(writes := Deletions(Firsts(rows, i)))
    {
      OneMore(rows, i, Rows(stub.world, name));
      var amount := Amount(t, rows[i]);
      if amount.None? {
        return Err(BadRow);
      }
      stub.DelState(rows[i]);
      OneMoreAmount(t, rows, i, Rows(stub.world, name));
      finalVal := finalVal + amount.value;
    }
    r := Update(t, stub, name, t.format(finalVal), "+");
  }

  function DeleteSets(w: Ledger, name: string): Result<Sets, Fault> {
    var rows := Rows(w, name);
    if !ValidAttributes([DELTA_INDEX, name]) then Err(BadKey)
    else if rows == {} then Err(NoVariable)
    else Ok(RWSet(map[], map[RowsOf(name) := Scan(w, RowsOf(name))], Deletions(rows), map[]))
  }

  method Delete(stub: Stub<string>, name: string) returns (r: Result<(), Fault>)
    requires stub.rw == Nothing()
    modifies stub
    ensures match DeleteSets(stub.world, name)
            case Err(e) => r == Err(e)
            case Ok(rw) => r == Ok(()) && stub.rw == rw
    ensures ValidAttributes([DELTA_INDEX, name]) && Rows(stub.world, name) == {} <==> r == Err(NoVariable)
  {
    assert [DELTA_INDEX] + [name] == [DELTA_INDEX, name];
    var prefix := CreateCompositeKey(DELTA_INDEX, [name]);
    if prefix.None? {
      return Err(BadKey);
    }
    var rows := stub.GetStateByRange(RowsOf(name));
    AllOfThem(rows, Rows(stub.world, name));
    if |rows| == 0 {
      return Err(NoVariable);
    }
    ghost var scanned := stub.rw;
    for i := 0 to |rows|
      invariant stub.rw == scanned.(writes := Deletions(Firsts(rows, i)))
    {
      stub.DelState(rows[i]);
      OneMore(rows, i, Rows(stub.world, name));
    }
    r := Ok(());
  }

  // ---- The single-row form ----

  function StandardKey(name: string): Loc {
    Loc(Channel, Plain(name))
  }

  /** The number a stored row holds; an absent or empty row counts as zero. */
  function Current(t: Numerals, w: Ledger, name: string): Option<int> {
    match ValueAt(w, StandardKey(name))
    case None => Some(0)
    case Some(text) => if text == "" then Some(0) else t.parse(text)
  }

  function UpdateStandardSets(t: Numerals, w: Ledger, name: string, delta: string, operator: string)
    : Result<Sets, Fault>
  {
    if t.parse(delta).None? || Current(t, w, name).None? then Err(NotANumber)
    else
      match Signed(t.parse(delta).value, operator)
      case None => Err(BadOperator)
      case Some(amount) =>
        if name == "" then Err(BadKey)
        else
          var row := StandardKey(name);
          Ok(RWSet(map[row := VersionAt(w, row)], map[],
                   map[row := Some(t.format(Current(t, w, name).value + amount))], map[]))
  }

  method UpdateStandard(t: Numerals, stub: Stub<string>, name: string, delta: string, operator: string)
    returns (r: Result<int, Fault>)
    requires stub.rw == Nothing()
    modifies stub
    ensures match UpdateStandardSets(t, stub.world, name, delta, operator)
            case Err(e) => r == Err(e)
            case Ok(rw) => r.Ok? && stub.rw == rw && rw.writes[StandardKey(name)] == Some(t.format(r.value))
    ensures t.parse(delta).None? || Current(t, stub.world, name).None? <==> r == Err(NotANumber)
    ensures t.parse(delta).Some? && Current(t, stub.world, name).Some? && operator !in {"+", "-"} <==>
      r == Err(BadOperator)
    ensures r.Ok? && operator == "+" ==> r.value == Current(t, stub.world, name).value + t.parse(delta).value
    ensures r.Ok? && operator == "-" ==> r.value == Current(t, stub.world, name).value - t.parse(delta).value
  {
    var deltaValue := t.parse(delta);
    if deltaValue.None? {
      return Err(NotANumber);
    }
    var currentValue := 0;
    var valueBytes := stub.GetState(StandardKey(name));
    if valueBytes.Some? && |valueBytes.value| > 0 {
      var parsed := t.parse(valueBytes.value);
      if parsed.None? {
        return Err(NotANumber);
      }
      currentValue := parsed.value;
    }
    if operator == "+" {
      currentValue := currentValue + deltaValue.value;
    } else if operator == "-" {
      currentValue := currentValue - deltaValue.value;
    } else {
      return Err(BadOperator);
    }
    if name == "" {
      return Err(BadKey);
    }
    stub.PutState(StandardKey(name), t.format(currentValue));
    r := Ok(currentValue);
  }

  function StandardValueOf(t: Numerals, w: Ledger, name: string): Result<string, Fault> {
    match t.parse(match ValueAt(w, StandardKey(name)) case None => "" case Some(text) => text)
    case None => Err(NotANumber)
    case Some(value) => Ok(t.format(value))
  }

  method GetStandard(t: Numerals, stub: Stub<string>, name: string) returns (r: Result<string, Fault>)
    modifies stub
    ensures r == StandardValueOf(t, stub.world, name)
  {
    var valueBytes := stub.GetState(StandardKey(name));
    var value := t.parse(if valueBytes.Some? then valueBytes.value else "");
    if value.None? {
      return Err(NotANumber);
    }
    r := Ok(t.format(value.value));
  }

  method DelStandard(stub: Stub<string>, name: string)
    modifies stub
    ensures stub.rw == old(stub.rw).(writes := old(stub.rw.writes)[StandardKey(name) := None])
  {
    stub.DelState(StandardKey(name));
  }

  /** What endorsing a call against a committed world records. */
  ghost function Simulate(t: Numerals, op: Op, txId: string, w: Ledger): Result<Sets, Fault> {
    match op
    case Update(name, delta, operator) =>
      (match UpdateRow(t, txId, name, delta, operator)
       case Err(e) => Err(e)
       case Ok(row) => Ok(RWSet(map[], map[], map[row := Some("\0")], map[])))
    case Prune(name) => PruneSets(t, txId, w, name)
    case Delete(name) => DeleteSets(w, name)
    case UpdateStandard(name, delta, operator) => UpdateStandardSets(t, w, name, delta, operator)
    case DelStandard(name) => Ok(RWSet(map[], map[], map[StandardKey(name) := None], map[]))
  }

  /** The endorsers of `tx` simulated it against a world `chain` has passed through. */
  ghost predicate EndorsedAt(t: Numerals, chain: Chain, tx: Tx<Op, string>) {
    tx.height <= |chain| && Simulate(t, tx.op, tx.id, WorldAt(chain, tx.height)) == Ok(tx.rw)
  }

  /** Any history: every transaction was endorsed at some earlier height and accepted. */
  ghost predicate Run(t: Numerals, chain: Chain) {
    && Committed(chain)
    && forall j {:trigger EndorsedAt(t, chain, chain[j])} :: 0 <= j < |chain| ==> EndorsedAt(t, chain, chain[j])
  }
}
