/** No delta is lost or counted twice, and the two forms of a variable agree. */
module HighThroughputProofs {
  import opened Wrappers
  import opened Fabric
  import opened CompositeKeys
  import opened NumberText
  import opened HighThroughput

  /** What a committed call means for one variable; a Prune means nothing. */
  datatype Event = Add(amount: int) | Clear

  function Append(events: seq<Event>, event: Option<Event>): seq<Event> {
    match event
    case None => events
    case Some(e) => events + [e]
  }

  function EventOf(t: Numerals, delta: string, operator: string): Option<Event> {
    match t.parse(delta)
    case None => None
    case Some(value) =>
      if operator == "+" then Some(Add(value)) else if operator == "-" then Some(Add(-value)) else None
  }

  function DeltaEvent(t: Numerals, op: Op, name: string): Option<Event> {
    if op.name != name then None
    else
      match op
      case Update(_, delta, operator) => EventOf(t, delta, operator)
      case Delete(_) => Some(Clear)
      case _ => None
  }

  function DeltaEvents(t: Numerals, chain: Chain, name: string): seq<Event> {
    if chain == [] then []
    else
      var n := |chain| - 1;
      Append(DeltaEvents(t, chain[..n], name), DeltaEvent(t, chain[n].op, name))
  }

  function StandardEvent(t: Numerals, op: Op, name: string): Option<Event> {
    if op.name != name then None
    else
      match op
      case UpdateStandard(_, delta, operator) => EventOf(t, delta, operator)
      case DelStandard(_) => Some(Clear)
      case _ => None
  }

  function StandardEvents(t: Numerals, chain: Chain, name: string): seq<Event> {
    if chain == [] then []
    else
      var n := |chain| - 1;
      Append(StandardEvents(t, chain[..n], name), StandardEvent(t, chain[n].op, name))
  }

  function Take(value: Option<int>, event: Option<Event>): Option<int> {
    match event
    case None => value
    case Some(Clear) => None
    case Some(Add(amount)) => Some(amount + if value.Some? then value.value else 0)
  }

  /** The serial meaning of a history: whether the variable exists, and its value. */
  function Value(events: seq<Event>): Option<int> {
    if events == [] then None
    else
      var n := |events| - 1;
      Take(Value(events[..n]), Some(events[n]))
  }

  lemma {:induction false} ValueOfAppend(events: seq<Event>, event: Option<Event>)
    ensures Value(Append(events, event)) == Take(Value(events), event)
  {
    if event.Some? {
      assert (events + [event.value])[..|events|] == events;
    }
  }

  function Sum(adds: seq<Event>): int
    requires forall e :: e in adds ==> e.Add?
  {
    if adds == [] then 0 else adds[|adds| - 1].amount + Sum(adds[..|adds| - 1])
  }

  /** Read forwards: the sum of what was added since the last clearing. */
  lemma {:induction false} ValueIsSumSinceClear(before: seq<Event>, adds: seq<Event>)
    requires before == [] || before[|before| - 1] == Clear
    requires forall e :: e in adds ==> e.Add?
    ensures Value(before + adds) == if adds == [] then None else Some(Sum(adds))
  {
    if adds == [] {
      assert before + adds == before;
    } else {
      var n := |adds| - 1;
      assert (before + adds)[..|before| + n] == before + adds[..n];
      ValueIsSumSinceClear(before, adds[..n]);
    }
  }

  predicate AllAdds(events: seq<Event>) {
    forall e :: e in events ==> e.Add?
  }

  lemma {:induction false} SumTakes(adds: seq<Event>, i: nat)
    requires AllAdds(adds) && i < |adds|
    ensures AllAdds(adds[..i] + adds[i + 1..])
    ensures Sum(adds) == adds[i].amount + Sum(adds[..i] + adds[i + 1..])
  {
    var n := |adds| - 1;
    var rest := adds[..i] + adds[i + 1..];
    if i == n {
      assert rest == adds[..n];
    } else {
      SumTakes(adds[..n], i);
      assert rest[..n - 1] == adds[..n][..i] + adds[..n][i + 1..] && rest[n - 1] == adds[n];
    }
  }

  lemma {:induction false} BagWithout(adds: seq<Event>, i: nat)
    requires i < |adds|
    ensures multiset(adds[..i] + adds[i + 1..]) == multiset(adds) - multiset{adds[i]}
  {
    assert adds == adds[..i] + [adds[i]] + adds[i + 1..];
  }

  /** The order in which updates were committed does not show in their sum. */
  lemma {:induction false} SumIgnoresOrder(adds: seq<Event>, others: seq<Event>)
    requires AllAdds(adds) && AllAdds(others) && multiset(adds) == multiset(others)
    ensures Sum(adds) == Sum(others)
  {
    if adds == [] {
      assert |multiset(others)| == 0;
    } else {
      var n := |adds| - 1;
      assert adds[n] in multiset(others);
      var i :| 0 <= i < |others| && others[i] == adds[n];
      assert adds[..n] + adds[n + 1..] == adds[..n];
      BagWithout(adds, n);
      BagWithout(others, i);
      SumTakes(others, i);
      SumIgnoresOrder(adds[..n], others[..i] + others[i + 1..]);
    }
  }

  lemma {:induction false} RunPrefix(t: Numerals, chain: Chain, n: nat)
    requires Run(t, chain) && n <= |chain|
    ensures Run(t, chain[..n])
    ensures n < |chain| ==> Accepts(chain[..n], chain[n]) && EndorsedAt(t, chain[..n], chain[n])
  {
    PrefixCommitted(chain, n);
    forall j | 0 <= j <= n && j < |chain|
      ensures EndorsedAt(t, chain[..n], chain[j])
    {
      PrefixCommitted(chain, j);
      assert EndorsedAt(t, chain, chain[j]);
      PrefixWorld(chain, n, chain[j].height);
    }
  }

  lemma {:induction false} PruneDependsOnScan(t: Numerals, txId: string, w: Ledger, u: Ledger, name: string)
    requires Scan(w, RowsOf(name)) == Scan(u, RowsOf(name))
    ensures PruneSets(t, txId, w, name) == PruneSets(t, txId, u, name)
    ensures DeleteSets(w, name) == DeleteSets(u, name)
  {
    assert Rows(w, name) == Rows(u, name);
  }

  lemma {:induction false} StandardDependsOnRow(t: Numerals, w: Ledger, u: Ledger, name: string, delta: string,
                                                operator: string)
    requires At(w, StandardKey(name)) == At(u, StandardKey(name))
    ensures UpdateStandardSets(t, w, name, delta, operator) == UpdateStandardSets(t, u, name, delta, operator)
  {
  }

  /** What the version check guarantees: the same simulation, seen from another world. */
  lemma {:induction false} SimulatesAlike(t: Numerals, op: Op, txId: string, w: Ledger, u: Ledger, rw: Sets)
    requires Simulate(t, op, txId, w) == Ok(rw) && Fresh(u, rw) && Agree(w, u, rw)
    ensures Simulate(t, op, txId, u) == Ok(rw)
  {
    match op
    case Update(_, _, _) =>
    case Prune(name) =>
      assert rw.scans[RowsOf(name)] == Scan(w, RowsOf(name));
      PruneDependsOnScan(t, txId, w, u, name);
    case Delete(name) =>
      assert rw.scans[RowsOf(name)] == Scan(w, RowsOf(name));
      PruneDependsOnScan(t, txId, w, u, name);
    case UpdateStandard(name, delta, operator) =>
      assert Observed(rw, StandardKey(name));
      StandardDependsOnRow(t, w, u, name, delta, operator);
    case DelStandard(_) =>
  }

  /** Endorsing records what the world holds. */
  lemma {:induction false} SimulationIsFresh(t: Numerals, op: Op, txId: string, w: Ledger)
    requires Simulate(t, op, txId, w).Ok?
    ensures Fresh(w, Simulate(t, op, txId, w).value)
  {
    match op
    case Update(_, _, _) =>
    case Prune(_) =>
    case Delete(_) =>
    case UpdateStandard(_, _, _) =>
    case DelStandard(_) =>
  }

  /** An accepted transaction does what running it alone, at its commit, would do. */
  lemma {:induction false} AcceptedIsAtomic(t: Numerals, chain: Chain, tx: Tx<Op, string>)
    requires EndorsedAt(t, chain, tx) && Accepts(chain, tx)
    ensures Simulate(t, tx.op, tx.id, Replay(chain)) == Ok(tx.rw)
  {
    var w := WorldAt(chain, tx.height);
    assert chain[..|chain|] == chain;
    SimulationIsFresh(t, tx.op, tx.id, w);
    FreshWorldsAgree(chain, tx.height, |chain|, tx.rw);
    SimulatesAlike(t, tx.op, tx.id, w, Replay(chain), tx.rw);
  }

  predicate IsRow(t: Numerals, l: Loc) {
    && l.key.Composite? && l.key.index == DELTA_INDEX && |l.key.attributes| == 4
    && Amount(t, l).Some? && ValidAttributes([DELTA_INDEX, l.key.attributes[0]])
  }

  /** A key and value as this contract writes them, in transaction `txId`. */
  predicate WellWritten(t: Numerals, l: Loc, value: string) {
    l.space == Channel && if l.key.Composite? then IsRow(t, l) else t.parse(value).Some?
  }

  lemma {:induction false} WritesWell(t: Numerals, op: Op, txId: string, w: Ledger, l: Loc)
    requires Simulate(t, op, txId, w).Ok?
    ensures var rw := Simulate(t, op, txId, w).value;
            && rw.policies == map[]
            && (l in rw.writes && rw.writes[l].Some? ==>
                  && WellWritten(t, l, rw.writes[l].value)
                  && (l.key.Composite? ==> l.key.attributes[3] == txId))
  {
    match op
    case Update(name, delta, operator) => RowIsRow(t, txId, name, delta, operator);
    case Prune(name) =>
      RowIsRow(t, txId, name, t.format(Total(t, Rows(w, name))), "+");
    case Delete(_) =>
    case UpdateStandard(_, _, _) =>
    case DelStandard(_) =>
  }

  lemma {:induction false} RowIsRow(t: Numerals, txId: string, name: string, delta: string, operator: string)
    ensures UpdateRow(t, txId, name, delta, operator).Ok? ==> IsRow(t, RowKey(name, operator, delta, txId))
  {
    var parts := [DELTA_INDEX, name, operator, delta, txId];
    if ValidAttributes(parts) {
      assert ValidAttribute(parts[0]) && ValidAttribute(parts[1]);
    }
  }

  /** What every history keeps: rows are readable and carry the id of the transaction that
      wrote them, single rows hold a number, and no key has a policy of its own. */
  ghost predicate Tidy(t: Numerals, chain: Chain) {
    forall l :: l in Replay(chain) ==> TidyEntry(t, chain, l, Replay(chain)[l])
  }

  predicate TidyEntry(t: Numerals, chain: Chain, l: Loc, entry: Entry<string>) {
    && entry.policy == {} && WellWritten(t, l, entry.value)
    && (l.key.Composite? ==> Used(chain, l.key.attributes[3]))
  }

  lemma {:induction false} StaysTidy(t: Numerals, chain: Chain, tx: Tx<Op, string>)
    requires Tidy(t, chain) && Simulate(t, tx.op, tx.id, Replay(chain)) == Ok(tx.rw)
    ensures Tidy(t, chain + [tx])
  {
    var next := chain + [tx];
    assert next[..|chain|] == chain;
    forall l | l in Replay(next)
      ensures TidyEntry(t, next, l, Replay(next)[l])
    {
      assert At(Replay(next), l) == After(Replay(chain), tx.rw, |chain|, l);
      WritesWell(t, tx.op, tx.id, Replay(chain), l);
      if l.key.Composite? {
        UsedGrows(chain, tx, l.key.attributes[3]);
      }
    }
  }

  lemma {:induction false} RowsAfter(w: Ledger, rw: Sets, version: nat, name: string, l: Loc)
    ensures l in Rows(Apply(w, rw, version), name) <==>
            Matches(RowsOf(name), l) && if l in rw.writes then rw.writes[l].Some? else l in w
  {
    assert At(Apply(w, rw, version), l) == After(w, rw, version, l);
  }

  lemma {:induction false} RowMatches(name: string, other: string, operator: string, delta: string, txId: string)
    ensures Matches(RowsOf(name), RowKey(other, operator, delta, txId)) <==> name == other
  {
    var parts := [other, operator, delta, txId];
    assert [name] <= parts <==> [name][0] == parts[0];
  }

  lemma {:induction false} UpdateAddsRow(t: Numerals, txId: string, w: Ledger, op: Op, version: nat, name: string,
                                         rw: Sets)
    requires op.Update? && Simulate(t, op, txId, w) == Ok(rw)
    ensures Rows(Apply(w, rw, version), name)
         == Rows(w, name) + if op.name == name then {RowKey(name, op.operator, op.delta, txId)} else {}
  {
    var row := RowKey(op.name, op.operator, op.delta, txId);
    assert rw.writes == map[row := Some("\0")];
    RowMatches(name, op.name, op.operator, op.delta, txId);
    forall l { RowsAfter(w, rw, version, name, l); }
  }

  lemma {:induction false} OtherRows(name: string, other: string, l: Loc)
    requires Matches(RowsOf(name), l) && Matches(RowsOf(other), l)
    ensures name == other
  {
    assert l.key.attributes[0] == [name][0] == [other][0];
  }

  lemma {:induction false} PruneWrites(t: Numerals, txId: string, w: Ledger, pruned: string, rw: Sets)
    requires PruneSets(t, txId, w, pruned) == Ok(rw)
    ensures Readable(t, Rows(w, pruned))
    ensures var row := RowKey(pruned, "+", t.format(Total(t, Rows(w, pruned))), txId);
            rw.writes == Deletions(Rows(w, pruned))[row := Some("\0")]
  {
  }

  lemma {:induction false} PruneLeavesOneRow(t: Numerals, txId: string, w: Ledger, pruned: string, version: nat,
                                             name: string, rw: Sets)
    requires PruneSets(t, txId, w, pruned) == Ok(rw)
    ensures Readable(t, Rows(w, pruned))
    ensures Rows(Apply(w, rw, version), name)
         == if pruned == name then {RowKey(name, "+", t.format(Total(t, Rows(w, name))), txId)} else Rows(w, name)
  {
    PruneWrites(t, txId, w, pruned, rw);
    var rows := Rows(w, pruned);
    var row := RowKey(pruned, "+", t.format(Total(t, rows)), txId);
    RowMatches(name, pruned, "+", t.format(Total(t, rows)), txId);
    forall l
      ensures l in Rows(Apply(w, rw, version), name) <==> if pruned == name then l == row else l in Rows(w, name)
    {
      RowsAfter(w, rw, version, name, l);
      if l in rows && Matches(RowsOf(name), l) {
        OtherRows(name, pruned, l);
      }
    }
  }

  lemma {:induction false} DeleteLeavesNoRow(w: Ledger, deleted: string, version: nat, name: string)
    requires DeleteSets(w, deleted).Ok?
    ensures Rows(Apply(w, DeleteSets(w, deleted).value, version), name)
         == if deleted == name then {} else Rows(w, name)
  {
    var rw, rows := DeleteSets(w, deleted).value, Rows(w, deleted);
    assert rw.writes == Deletions(rows);
    forall l
      ensures l in Rows(Apply(w, rw, version), name) <==> deleted != name && l in Rows(w, name)
    {
      RowsAfter(w, rw, version, name, l);
      if l in rows && Matches(RowsOf(name), l) {
        OtherRows(name, deleted, l);
      }
    }
  }

  lemma {:induction false} StandardLeavesRows(w: Ledger, rw: Sets, version: nat, name: string)
    requires forall l :: l in rw.writes ==> l.key.Plain?
    ensures Rows(Apply(w, rw, version), name) == Rows(w, name)
  {
    forall l { RowsAfter(w, rw, version, name, l); }
  }

  /** The delta rows of a variable spell out a value, or there are none. */
  ghost predicate Holds(t: Numerals, w: Ledger, name: string, value: Option<int>) {
    var rows := Rows(w, name);
    && Readable(t, rows)
    && (value.None? <==> rows == {})
    && (value.Some? ==> ValidAttributes([DELTA_INDEX, name]) && Total(t, rows) == value.value)
  }

  lemma {:induction false} TotalOfOne(t: Numerals, row: Loc)
    requires Amount(t, row).Some?
    ensures Total(t, {row}) == Amount(t, row).value
  {
    TotalTakes(t, {row}, row);
    assert {row} - {row} == {};
  }

  /** No row of `w` was written by transaction `txId`. */
  predicate Unwritten(w: Ledger, txId: string) {
    forall l :: l in w && l.key.Composite? && |l.key.attributes| == 4 ==> l.key.attributes[3] != txId
  }

  lemma {:induction false} AddRow(t: Numerals, rows: set<Loc>, row: Loc)
    requires Readable(t, rows) && Amount(t, row).Some? && row !in rows
    ensures Readable(t, rows + {row}) && Total(t, rows + {row}) == Total(t, rows) + Amount(t, row).value
  {
    TotalTakes(t, rows + {row}, row);
    assert rows + {row} - {row} == rows;
  }

  /** The row an Update writes is worth the update's delta. */
  lemma {:induction false} RowIsWorthItsUpdate(t: Numerals, txId: string, w: Ledger, op: Op)
    requires op.Update? && Simulate(t, op, txId, w).Ok?
    ensures var row := RowKey(op.name, op.operator, op.delta, txId);
            && Amount(t, row).Some? && ValidAttributes([DELTA_INDEX, op.name])
            && DeltaEvent(t, op, op.name) == Some(Add(Amount(t, row).value))
  {
    RowIsRow(t, txId, op.name, op.delta, op.operator);
  }

  lemma {:induction false} NewRowHolds(t: Numerals, w: Ledger, u: Ledger, name: string, value: Option<int>, row: Loc)
    requires Holds(t, w, name, value) && Amount(t, row).Some? && ValidAttributes([DELTA_INDEX, name])
    requires row !in w && Rows(u, name) == Rows(w, name) + {row}
    ensures Holds(t, u, name, Take(value, Some(Add(Amount(t, row).value))))
  {
    AddRow(t, Rows(w, name), row);
    assert value.None? ==> Total(t, Rows(w, name)) == 0;
  }

  lemma {:induction false} UpdateHolds(t: Numerals, txId: string, w: Ledger, op: Op, version: nat, name: string,
                                       value: Option<int>, rw: Sets)
    requires Holds(t, w, name, value) && Unwritten(w, txId)
    requires op.Update? && Simulate(t, op, txId, w) == Ok(rw)
    ensures Holds(t, Apply(w, rw, version), name, Take(value, DeltaEvent(t, op, name)))
  {
    UpdateAddsRow(t, txId, w, op, version, name, rw);
    if op.name == name {
      var row := RowKey(name, op.operator, op.delta, txId);
      RowIsWorthItsUpdate(t, txId, w, op);
      NewRowHolds(t, w, Apply(w, rw, version), name, value, row);
    } else {
      assert Rows(w, name) + {} == Rows(w, name);
    }
  }

  lemma {:induction false} PruneHolds(t: Numerals, w: Ledger, txId: string, pruned: string, version: nat,
                                      name: string, value: Option<int>, rw: Sets)
    requires Holds(t, w, name, value) && PruneSets(t, txId, w, pruned) == Ok(rw)
    ensures Holds(t, Apply(w, rw, version), name, value)
  {
    PruneLeavesOneRow(t, txId, w, pruned, version, name, rw);
    if pruned == name {
      var text := t.format(Total(t, Rows(w, name)));
      RowIsRow(t, txId, name, text, "+");
      TotalOfOne(t, RowKey(name, "+", text, txId));
    }
  }

  lemma {:induction false} DeleteHolds(t: Numerals, w: Ledger, deleted: string, version: nat, name: string,
                                       value: Option<int>, rw: Sets)
    requires Holds(t, w, name, value) && DeleteSets(w, deleted) == Ok(rw)
    ensures Holds(t, Apply(w, rw, version), name, if deleted == name then None else value)
  {
    DeleteLeavesNoRow(w, deleted, version, name);
  }

  lemma {:induction false} StandardHoldsRows(t: Numerals, w: Ledger, rw: Sets, version: nat, name: string,
                                             value: Option<int>)
    requires Holds(t, w, name, value) && forall l :: l in rw.writes ==> l.key.Plain?
    ensures Holds(t, Apply(w, rw, version), name, value)
  {
    StandardLeavesRows(w, rw, version, name);
  }

  lemma {:induction false} NoDeltaEvent(t: Numerals, op: Op, name: string, value: Option<int>)
    requires op.Prune? || op.UpdateStandard? || op.DelStandard?
    ensures Take(value, DeltaEvent(t, op, name)) == value
  {
  }

  /** One accepted transaction changes what the rows spell out as its event says. */
  lemma {:induction false} StepHolds(t: Numerals, txId: string, w: Ledger, op: Op, version: nat, name: string,
                                     value: Option<int>, rw: Sets)
    requires Holds(t, w, name, value) && Unwritten(w, txId) && Simulate(t, op, txId, w) == Ok(rw)
    ensures Holds(t, Apply(w, rw, version), name, Take(value, DeltaEvent(t, op, name)))
  {
    match op
    case Update(_, _, _) => UpdateHolds(t, txId, w, op, version, name, value, rw);
    case Delete(deleted) => DeleteHolds(t, w, deleted, version, name, value, rw);
    case Prune(pruned) =>
      NoDeltaEvent(t, op, name, value);
      PruneHolds(t, w, txId, pruned, version, name, value, rw);
    case _ =>
      NoDeltaEvent(t, op, name, value);
      StandardHoldsRows(t, w, rw, version, name, value);
  }

  lemma {:induction false} TidyUnwritten(t: Numerals, chain: Chain, txId: string)
    requires Tidy(t, chain) && !Used(chain, txId)
    ensures Unwritten(Replay(chain), txId)
  {
    forall l | l in Replay(chain) && l.key.Composite? && |l.key.attributes| == 4
      ensures l.key.attributes[3] != txId
    {
      assert TidyEntry(t, chain, l, Replay(chain)[l]);
    }
  }

  lemma {:induction false} HistoryHolds(t: Numerals, chain: Chain, name: string)
    requires Run(t, chain)
    ensures Tidy(t, chain)
    ensures Holds(t, Replay(chain), name, Value(DeltaEvents(t, chain, name)))
  {
    if chain != [] {
      var n := |chain| - 1;
      var before, tx := chain[..n], chain[n];
      RunPrefix(t, chain, n);
      HistoryHolds(t, before, name);
      AcceptedIsAtomic(t, before, tx);
      assert before + [tx] == chain;
      StaysTidy(t, before, tx);
      TidyUnwritten(t, before, tx.id);
      StepHolds(t, tx.id, Replay(before), tx.op, n, name, Value(DeltaEvents(t, before, name)), tx.rw);
      ValueOfAppend(DeltaEvents(t, before, name), DeltaEvent(t, tx.op, name));
    }
  }

  /** Conservation: whatever the interleaving of endorsements and commits, `Get` answers
      with the serial value of the committed Updates and Deletes. */
  lemma {:induction false} GetIsSerialValue(t: Numerals, chain: Chain, name: string)
    requires Run(t, chain)
    ensures ValueOf(t, Replay(chain), name) ==
            match Value(DeltaEvents(t, chain, name))
            case Some(value) => Ok(t.format(value))
            case None => Err(if ValidAttributes([DELTA_INDEX, name]) then NoVariable else BadKey)
  {
    HistoryHolds(t, chain, name);
  }

  /** The same, spelled out: the signed sum of the Updates committed since the last
      committed Delete, each counted once. */
  lemma {:induction false} GetIsSumSinceDelete(t: Numerals, chain: Chain, name: string, before: seq<Event>,
                                               adds: seq<Event>)
    requires Run(t, chain) && DeltaEvents(t, chain, name) == before + adds
    requires before == [] || before[|before| - 1] == Clear
    requires forall e :: e in adds ==> e.Add?
    ensures ValueOf(t, Replay(chain), name).Ok? <==> adds != []
    ensures adds != [] ==> ValueOf(t, Replay(chain), name) == Ok(t.format(Sum(adds)))
  {
    ValueIsSumSinceClear(before, adds);
    GetIsSerialValue(t, chain, name);
  }

  /** Histories with the same updates since the last Delete, in any order, with any
      pruning and any interleaving, give the same answer. */
  lemma {:induction false} OrderDoesNotShow(t: Numerals, chain: Chain, other: Chain, name: string, before: seq<Event>,
                                            adds: seq<Event>, before': seq<Event>, adds': seq<Event>)
    requires Run(t, chain) && DeltaEvents(t, chain, name) == before + adds
    requires Run(t, other) && DeltaEvents(t, other, name) == before' + adds'
    requires before == [] || before[|before| - 1] == Clear
    requires before' == [] || before'[|before'| - 1] == Clear
    requires AllAdds(adds) && AllAdds(adds') && multiset(adds) == multiset(adds')
    ensures ValueOf(t, Replay(chain), name) == ValueOf(t, Replay(other), name)
  {
    ValueIsSumSinceClear(before, adds);
    ValueIsSumSinceClear(before', adds');
    SumIgnoresOrder(adds, adds');
    assert |adds| == |multiset(adds)| == |multiset(adds')| == |adds'|;
    GetIsSerialValue(t, chain, name);
    GetIsSerialValue(t, other, name);
  }

  // ---- The single-row form ----

  ghost predicate StandardHolds(t: Numerals, w: Ledger, name: string, value: Option<int>) {
    ValueAt(w, StandardKey(name)) == (if value.None? then None else Some(t.format(value.value)))
  }

  lemma {:induction false} StandardWrites(t: Numerals, w: Ledger, op: Op, txId: string, name: string, rw: Sets)
    requires Simulate(t, op, txId, w) == Ok(rw)
    ensures StandardKey(name) in rw.writes <==> (op.UpdateStandard? || op.DelStandard?) && op.name == name
  {
    match op
    case Update(_, _, _) =>
    case Prune(_) =>
    case Delete(_) =>
    case UpdateStandard(_, _, _) =>
    case DelStandard(_) =>
  }

  lemma {:induction false} StandardAfter(w: Ledger, rw: Sets, version: nat, name: string)
    ensures ValueAt(Apply(w, rw, version), StandardKey(name)) ==
            if StandardKey(name) in rw.writes then rw.writes[StandardKey(name)] else ValueAt(w, StandardKey(name))
  {
    assert At(Apply(w, rw, version), StandardKey(name)) == After(w, rw, version, StandardKey(name));
  }

  lemma {:induction false} StandardStep(t: Numerals, w: Ledger, op: Op, txId: string, version: nat, name: string,
                                        value: Option<int>, rw: Sets)
    requires StandardHolds(t, w, name, value) && Simulate(t, op, txId, w) == Ok(rw)
    ensures StandardHolds(t, Apply(w, rw, version), name, Take(value, StandardEvent(t, op, name)))
  {
    StandardWrites(t, w, op, txId, name, rw);
    StandardAfter(w, rw, version, name);
  }

  lemma {:induction false} StandardHistoryHolds(t: Numerals, chain: Chain, name: string)
    requires Run(t, chain)
    ensures StandardHolds(t, Replay(chain), name, Value(StandardEvents(t, chain, name)))
  {
    if chain != [] {
      var n := |chain| - 1;
      var before, tx := chain[..n], chain[n];
      RunPrefix(t, chain, n);
      StandardHistoryHolds(t, before, name);
      AcceptedIsAtomic(t, before, tx);
      StandardStep(t, Replay(before), tx.op, tx.id, n, name, Value(StandardEvents(t, before, name)), tx.rw);
      ValueOfAppend(StandardEvents(t, before, name), StandardEvent(t, tx.op, name));
    }
  }

  /** Serialisability of the contended form: `GetStandard` answers with the value of the
      accepted updates run one after the other in commit order. */
  lemma {:induction false} GetStandardIsSerialValue(t: Numerals, chain: Chain, name: string)
    requires Run(t, chain)
    ensures StandardValueOf(t, Replay(chain), name) ==
            match Value(StandardEvents(t, chain, name))
            case Some(value) => Ok(t.format(value))
            case None => Err(NotANumber)
  {
    StandardHistoryHolds(t, chain, name);
  }

  /** An absent row, or an empty one, counts as zero for an update. */
  lemma {:induction false} StartsFromZero(t: Numerals, w: Ledger, name: string, delta: string, operator: string)
    requires ValueAt(w, StandardKey(name)) in {None, Some("")} && name != ""
    requires t.parse(delta).Some? && operator in {"+", "-"}
    ensures var r, v := UpdateStandardSets(t, w, name, delta, operator), t.parse(delta).value;
            r.Ok? && r.value.writes == map[StandardKey(name) := Some(t.format(if operator == "+" then v else -v))]
  {
  }

  /** Refinement: histories that add and clear alike, whatever they prune and however
      they were interleaved, agree on whether the variable exists and on its value. */
  lemma {:induction false} FormsAgree(t: Numerals, deltas: Chain, standard: Chain, name: string)
    requires Run(t, deltas) && Run(t, standard)
    requires DeltaEvents(t, deltas, name) == StandardEvents(t, standard, name)
    ensures var d, s := ValueOf(t, Replay(deltas), name), StandardValueOf(t, Replay(standard), name);
            (d.Ok? <==> s.Ok?) && (d.Ok? ==> d == s)
  {
    GetIsSerialValue(t, deltas, name);
    GetStandardIsSerialValue(t, standard, name);
  }

  // ---- Contention ----

  lemma {:induction false} OpenToAll(t: Numerals, chain: Chain, tx: Tx<Op, string>)
    requires Tidy(t, chain) && EndorsedAt(t, chain, tx)
    ensures Endorsed(Replay(chain), tx.rw, tx.endorsers)
  {
    forall l | l in tx.rw.writes.Keys + tx.rw.policies.Keys
      ensures l.space == Channel && (l in Replay(chain) ==> Replay(chain)[l].policy <= tx.endorsers)
    {
      WritesInChannel(t, tx.op, tx.id, WorldAt(chain, tx.height), l);
      if l in Replay(chain) {
        assert TidyEntry(t, chain, l, Replay(chain)[l]);
      }
    }
  }

  lemma {:induction false} WritesInChannel(t: Numerals, op: Op, txId: string, w: Ledger, l: Loc)
    requires Simulate(t, op, txId, w).Ok?
    ensures l in Simulate(t, op, txId, w).value.writes ==> l.space == Channel
    ensures Simulate(t, op, txId, w).value.policies == map[]
  {
    match op
    case Update(_, _, _) =>
    case Prune(_) =>
    case Delete(_) =>
    case UpdateStandard(_, _, _) =>
    case DelStandard(_) =>
  }

  ghost predicate Offered(t: Numerals, chain: Chain, block: Chain) {
    && (forall i :: 0 <= i < |block| ==> EndorsedAt(t, chain, block[i]) && !Used(chain, block[i].id))
    && (forall i, j :: 0 <= i < j < |block| ==> block[i].id != block[j].id)
  }

  lemma {:induction false} OfferedAfter(t: Numerals, chain: Chain, block: Chain, grown: Chain)
    requires block != [] && Offered(t, chain, block) && (grown == chain || grown == chain + [block[0]])
    ensures Offered(t, grown, block[1..])
  {
    var rest := block[1..];
    forall i | 0 <= i < |rest|
      ensures EndorsedAt(t, grown, rest[i]) && !Used(grown, rest[i].id)
    {
      assert rest[i] == block[i + 1];
      PrefixWorld(grown, |chain|, rest[i].height);
      assert grown[..|chain|] == chain;
      UsedGrows(chain, block[0], rest[i].id);
    }
  }

  lemma {:induction false} RunGrows(t: Numerals, chain: Chain, tx: Tx<Op, string>)
    requires Run(t, chain) && EndorsedAt(t, chain, tx) && Accepts(chain, tx)
    ensures Run(t, chain + [tx])
  {
    var next := chain + [tx];
    assert next[..|chain|] == chain;
    forall j | 0 <= j < |next|
      ensures EndorsedAt(t, next, next[j])
    {
      assert j < |chain| ==> EndorsedAt(t, chain, chain[j]);
      PrefixWorld(next, |chain|, next[j].height);
    }
  }

  lemma {:induction false} UpdateIsAccepted(t: Numerals, chain: Chain, tx: Tx<Op, string>)
    requires Run(t, chain) && EndorsedAt(t, chain, tx) && !Used(chain, tx.id) && tx.op.Update?
    ensures Accepts(chain, tx)
  {
    HistoryHolds(t, chain, "");
    OpenToAll(t, chain, tx);
  }

  lemma {:induction false} MoveFirst(chain: Chain, block: Chain)
    requires block != []
    ensures chain + [block[0]] + block[1..] == chain + block
  {
  }

  /** Updates of any variables, endorsed at any earlier heights, are never rejected. */
  lemma {:induction false} UpdatesNeverConflict(t: Numerals, chain: Chain, block: Chain)
    requires Run(t, chain) && Offered(t, chain, block)
    requires forall i :: 0 <= i < |block| ==> block[i].op.Update?
    ensures Order(chain, block) == chain + block && Run(t, chain + block)
    decreases |block|
  {
    if block == [] {
      assert chain + block == chain;
    } else {
      var tx, rest := block[0], block[1..];
      var grown := chain + [tx];
      UpdateIsAccepted(t, chain, tx);
      RunGrows(t, chain, tx);
      OfferedAfter(t, chain, block, grown);
      UpdatesNeverConflict(t, grown, rest);
      MoveFirst(chain, block);
    }
  }

  lemma {:induction false} StaleIsRejected(t: Numerals, chain: Chain, tx: Tx<Op, string>, height: nat)
    requires tx.op.UpdateStandard? && EndorsedAt(t, chain, tx) && tx.height <= height <= |chain|
    requires var l := StandardKey(tx.op.name); l in Replay(chain) && Replay(chain)[l].version >= height
    ensures !Accepts(chain, tx)
  {
    var l := StandardKey(tx.op.name);
    assert l in tx.rw.seen;
    if l in WorldAt(chain, tx.height) {
      EntryOrigin(chain, tx.height, l);
    }
  }

  lemma {:induction false} StaleBlockIsRejected(t: Numerals, chain: Chain, block: Chain, name: string, height: nat)
    requires height <= |chain| && Offered(t, chain, block)
    requires forall i :: 0 <= i < |block| ==>
      block[i].op.UpdateStandard? && block[i].op.name == name && block[i].height <= height
    requires var l := StandardKey(name); l in Replay(chain) && Replay(chain)[l].version >= height
    ensures Order(chain, block) == chain
    decreases |block|
  {
    if block != [] {
      StaleIsRejected(t, chain, block[0], height);
      OfferedAfter(t, chain, block, chain);
      StaleBlockIsRejected(t, chain, block[1..], name, height);
    }
  }

  /** The contended form: of a block of updates of one single-row variable, all endorsed
      at the current height, exactly the first is accepted. */
  lemma {:induction false} OnlyOneStandardUpdate(t: Numerals, chain: Chain, block: Chain, name: string)
    requires Run(t, chain) && Offered(t, chain, block) && block != []
    requires forall i :: 0 <= i < |block| ==>
      block[i].op.UpdateStandard? && block[i].op.name == name && block[i].height == |chain|
    ensures Order(chain, block) == chain + [block[0]] && Run(t, Order(chain, block))
  {
    var first := block[0];
    assert EndorsedAt(t, chain, first);
    assert chain[..|chain|] == chain;
    HistoryHolds(t, chain, name);
    OpenToAll(t, chain, first);
    SimulationIsFresh(t, first.op, first.id, Replay(chain));
    RunGrows(t, chain, first);
    OfferedAfter(t, chain, block, chain + [first]);
    assert (chain + [first])[..|chain|] == chain;
    assert At(Replay(chain + [first]), StandardKey(name)) == After(Replay(chain), first.rw, |chain|, StandardKey(name));
    StaleBlockIsRejected(t, chain + [first], block[1..], name, |chain|);
  }

  // ---- What each call does to the answers ----

  /** The number a query answers with, if it answers. */
  function NumberIn(t: Numerals, answer: Result<string, Fault>): Option<int> {
    match answer
    case Ok(text) => t.parse(text)
    case Err(_) => None
  }

  /** The number `Get` answers with at a height. */
  ghost function Gets(t: Numerals, chain: Chain, n: nat, name: string): Option<int>
    requires n <= |chain|
  {
    NumberIn(t, ValueOf(t, WorldAt(chain, n), name))
  }

  /** The number `GetStandard` answers with at a height. */
  function GetsStandard(t: Numerals, chain: Chain, n: nat, name: string): Option<int>
    requires n <= |chain|
  {
    NumberIn(t, StandardValueOf(t, WorldAt(chain, n), name))
  }

  function OrZero(value: Option<int>): int {
    if value.Some? then value.value else 0
  }

  lemma {:induction false} GetsSerialValue(t: Numerals, chain: Chain, n: nat, name: string)
    requires Run(t, chain) && n <= |chain|
    ensures Gets(t, chain, n, name) == Value(DeltaEvents(t, chain[..n], name))
    ensures GetsStandard(t, chain, n, name) == Value(StandardEvents(t, chain[..n], name))
  {
    RunPrefix(t, chain, n);
    GetIsSerialValue(t, chain[..n], name);
    GetStandardIsSerialValue(t, chain[..n], name);
  }

  lemma {:induction false} EventsStep(t: Numerals, chain: Chain, n: nat, name: string)
    requires n < |chain|
    ensures Value(DeltaEvents(t, chain[..n + 1], name))
         == Take(Value(DeltaEvents(t, chain[..n], name)), DeltaEvent(t, chain[n].op, name))
    ensures Value(StandardEvents(t, chain[..n + 1], name))
         == Take(Value(StandardEvents(t, chain[..n], name)), StandardEvent(t, chain[n].op, name))
  {
    assert chain[..n + 1][..n] == chain[..n];
    ValueOfAppend(DeltaEvents(t, chain[..n], name), DeltaEvent(t, chain[n].op, name));
    ValueOfAppend(StandardEvents(t, chain[..n], name), StandardEvent(t, chain[n].op, name));
  }

  /** The argument a committed update was given is a number, its operator one of the two. */
  lemma {:induction false} CommittedInOrder(t: Numerals, chain: Chain, n: nat)
    requires Run(t, chain) && n < |chain|
    ensures var op := chain[n].op;
            op.Update? || op.UpdateStandard? ==> t.parse(op.delta).Some? && op.operator in {"+", "-"}
  {
    RunPrefix(t, chain, n);
    AcceptedIsAtomic(t, chain[..n], chain[n]);
  }

  lemma {:induction false} GetsTakes(t: Numerals, chain: Chain, n: nat, name: string)
    requires Run(t, chain) && n < |chain|
    ensures Gets(t, chain, n + 1, name) == Take(Gets(t, chain, n, name), DeltaEvent(t, chain[n].op, name))
    ensures GetsStandard(t, chain, n + 1, name)
         == Take(GetsStandard(t, chain, n, name), StandardEvent(t, chain[n].op, name))
  {
    GetsSerialValue(t, chain, n, name);
    GetsSerialValue(t, chain, n + 1, name);
    EventsStep(t, chain, n, name);
  }

  /** What an update makes of a number. */
  predicate Moves(t: Numerals, delta: string, operator: string, before: Option<int>, after: Option<int>) {
    && t.parse(delta).Some? && operator in {"+", "-"}
    && (operator == "+" ==> after == Some(OrZero(before) + t.parse(delta).value))
    && (operator == "-" ==> after == Some(OrZero(before) - t.parse(delta).value))
  }

  /** What a call does to the number `Get` answers with: "+" adds its delta, "-" takes its
      delta away, a Delete ends the variable, and a Prune, a call about another variable or
      a single-row call changes nothing. */
  predicate ChangesGet(t: Numerals, op: Op, name: string, before: Option<int>, after: Option<int>) {
    if op.name != name then after == before
    else
      match op
      case Update(_, delta, operator) => Moves(t, delta, operator, before, after)
      case Delete(_) => after == None
      case _ => after == before
  }

  /** And to the number `GetStandard` answers with. */
  predicate ChangesGetStandard(t: Numerals, op: Op, name: string, before: Option<int>, after: Option<int>) {
    if op.name != name then after == before
    else
      match op
      case UpdateStandard(_, delta, operator) => Moves(t, delta, operator, before, after)
      case DelStandard(_) => after == None
      case _ => after == before
  }

  lemma {:induction false} EventChanges(t: Numerals, op: Op, name: string, before: Option<int>)
    requires op.Update? || op.UpdateStandard? ==> t.parse(op.delta).Some? && op.operator in {"+", "-"}
    ensures ChangesGet(t, op, name, before, Take(before, DeltaEvent(t, op, name)))
    ensures ChangesGetStandard(t, op, name, before, Take(before, StandardEvent(t, op, name)))
  {
  }

  /** Every committed call changes what the two queries answer exactly as it says. */
  lemma {:induction false} AnswersFollowEachCall(t: Numerals, chain: Chain, n: nat, name: string)
    requires Run(t, chain) && n < |chain|
    ensures ChangesGet(t, chain[n].op, name, Gets(t, chain, n, name), Gets(t, chain, n + 1, name))
    ensures var before, after := GetsStandard(t, chain, n, name), GetsStandard(t, chain, n + 1, name);
            ChangesGetStandard(t, chain[n].op, name, before, after)
  {
    GetsTakes(t, chain, n, name);
    CommittedInOrder(t, chain, n);
    EventChanges(t, chain[n].op, name, Gets(t, chain, n, name));
    EventChanges(t, chain[n].op, name, GetsStandard(t, chain, n, name));
  }

  // ---- Which calls succeed ----

  /** When a call is endorsed, from its arguments and what the queries answer. */
  ghost predicate Endorsable(t: Numerals, chain: Chain, op: Op, txId: string) {
    match op
    case Update(name, delta, operator) =>
      && t.parse(delta).Some? && operator in {"+", "-"}
      && ValidAttribute(name) && ValidAttribute(delta) && ValidAttribute(txId)
    case Prune(name) => Gets(t, chain, |chain|, name).Some? && ValidAttribute(txId)
    case Delete(name) => Gets(t, chain, |chain|, name).Some?
    case UpdateStandard(name, delta, operator) => t.parse(delta).Some? && operator in {"+", "-"} && name != ""
    case DelStandard(_) => true
  }

  lemma {:induction false} RowIsLawful(name: string, operator: string, delta: string, txId: string)
    requires operator in {"+", "-"}
    ensures ValidAttributes([DELTA_INDEX, name, operator, delta, txId]) <==>
            ValidAttribute(name) && ValidAttribute(delta) && ValidAttribute(txId)
    ensures ValidAttributes([DELTA_INDEX, name]) <==> ValidAttribute(name)
  {
    var parts, prefix := [DELTA_INDEX, name, operator, delta, txId], [DELTA_INDEX, name];
    if ValidAttributes(parts) {
      assert ValidAttribute(parts[1]) && ValidAttribute(parts[3]) && ValidAttribute(parts[4]);
    }
    if ValidAttributes(prefix) {
      assert ValidAttribute(prefix[1]);
    }
    assert ValidAttribute(parts[0]);
  }

  /** In every history a call succeeds exactly when its arguments are in order and what it
      prunes or deletes exists: no stored row is ever in the way. */
  lemma {:induction false} SucceedsExactlyWhen(t: Numerals, chain: Chain, op: Op, txId: string)
    requires Run(t, chain)
    ensures Simulate(t, op, txId, Replay(chain)).Ok? <==> Endorsable(t, chain, op, txId)
  {
    assert chain[..|chain|] == chain;
    match op
    case Update(name, delta, operator) =>
      if operator in {"+", "-"} {
        RowIsLawful(name, operator, delta, txId);
      }
    case Prune(name) =>
      HistoryHolds(t, chain, name);
      GetsSerialValue(t, chain, |chain|, name);
      if Rows(Replay(chain), name) != {} {
        RowIsLawful(name, "+", t.format(Total(t, Rows(Replay(chain), name))), txId);
      }
    case Delete(name) =>
      HistoryHolds(t, chain, name);
      GetsSerialValue(t, chain, |chain|, name);
    case UpdateStandard(name, _, _) => StandardHistoryHolds(t, chain, name);
    case DelStandard(_) =>
  }

  /** And such a call, endorsed at the current height, is accepted whoever endorses it. */
  lemma {:induction false} AcceptedAtOnce(t: Numerals, chain: Chain, op: Op, txId: string, endorsers: set<Org>)
    returns (tx: Tx<Op, string>)
    requires Run(t, chain) && Endorsable(t, chain, op, txId) && !Used(chain, txId)
    ensures tx.op == op && tx.id == txId && tx.endorsers == endorsers && Run(t, chain + [tx])
  {
    SucceedsExactlyWhen(t, chain, op, txId);
    assert chain[..|chain|] == chain;
    tx := Tx(txId, op, |chain|, endorsers, Simulate(t, op, txId, Replay(chain)).value);
    HistoryHolds(t, chain, "");
    OpenToAll(t, chain, tx);
    SimulationIsFresh(t, op, txId, Replay(chain));
    RunGrows(t, chain, tx);
  }
}
