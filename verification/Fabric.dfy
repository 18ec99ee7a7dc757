/** The ledger rules every contract of the samples is written against.

    A transaction is simulated by endorsing peers against some committed world, which
    records what it read and what it wants to write, and takes effect later, when the
    committing peers accept it. `Tx.height` says how many transactions were committed
    when it was simulated, so a chain of accepted transactions describes every possible
    interleaving of endorsements with commits. */
module Fabric {
  import opened Wrappers

  type Org = string

  /** Public state, or the implicit private data collection of one organization. */
  datatype Space = Channel | Implicit(org: Org)

  datatype Key = Plain(name: string) | Composite(index: string, attributes: seq<string>)

  datatype Loc = Loc(space: Space, key: Key)

  /** A range query: all keys under a partial composite key, or all plain keys. */
  datatype Query = PartialKey(space: Space, index: string, prefix: seq<string>) | PlainKeys(space: Space)

  predicate Matches(q: Query, l: Loc) {
    l.space == q.space &&
    match q
    case PartialKey(_, index, prefix) => l.key.Composite? && l.key.index == index && prefix <= l.key.attributes
    case PlainKeys(_) => l.key.Plain?
  }

  /** `policy` holds the organizations that must all endorse the next write of the key. */
  datatype Entry<+V> = Entry(value: V, version: nat, policy: set<Org>)

  type World<+V> = map<Loc, Entry<V>>

  /** What one simulation recorded. A write of `None` deletes the key. */
  datatype RWSet<+V> = RWSet(
    seen: map<Loc, Option<nat>>,
    scans: map<Query, map<Loc, nat>>,
    writes: map<Loc, Option<V>>,
    policies: map<Loc, set<Org>>)

  function Nothing<V>(): RWSet<V> {
    RWSet(map[], map[], map[], map[])
  }

  datatype Tx<+O, +V> = Tx(id: string, op: O, height: nat, endorsers: set<Org>, rw: RWSet<V>)

  function At<V>(w: World<V>, l: Loc): Option<Entry<V>> {
    if l in w then Some(w[l]) else None
  }

  function ValueAt<V>(w: World<V>, l: Loc): Option<V> {
    if l in w then Some(w[l].value) else None
  }

  function VersionAt<V>(w: World<V>, l: Loc): Option<nat> {
    if l in w then Some(w[l].version) else None
  }

  function Scan<V>(w: World<V>, q: Query): map<Loc, nat> {
    map l | l in w && Matches(q, l) :: w[l].version
  }

  predicate Touched<V>(rw: RWSet<V>, l: Loc) {
    l in rw.writes || l in rw.policies
  }

  /** The entry a key holds once `rw` has been applied as transaction number `version`. */
  function After<V>(w: World<V>, rw: RWSet<V>, version: nat, l: Loc): Option<Entry<V>> {
    var policy := if l in rw.policies then rw.policies[l] else if l in w then w[l].policy else {};
    if l in rw.writes then
      if rw.writes[l].None? then None else Some(Entry(rw.writes[l].value, version, policy))
    else if l in w && l in rw.policies then
      Some(Entry(w[l].value, version, policy))
    else
      At(w, l)
  }

  function Apply<V>(w: World<V>, rw: RWSet<V>, version: nat): (r: World<V>)
    ensures forall l :: At(r, l) == After(w, rw, version, l)
  {
    map l | l in w.Keys + rw.writes.Keys && After(w, rw, version, l).Some? :: After(w, rw, version, l).value
  }

  function Replay<O, V>(chain: seq<Tx<O, V>>): World<V> {
    if chain == [] then map[]
    else
      var n := |chain| - 1;
      Apply(Replay(chain[..n]), chain[n].rw, n)
  }

  /** The world after the first `n` transactions. */
  function WorldAt<O, V>(chain: seq<Tx<O, V>>, n: nat): World<V>
    requires n <= |chain|
  {
    Replay(chain[..n])
  }

  /** Version check: every read version and every range result is what it was. */
  predicate Fresh<V>(w: World<V>, rw: RWSet<V>) {
    && (forall l :: l in rw.seen ==> rw.seen[l] == VersionAt(w, l))
    && (forall q :: q in rw.scans ==> rw.scans[q] == Scan(w, q))
  }

  /** Endorsement check: a private write needs the collection's organization, a key with
      its own policy needs every organization that policy names. */
  predicate Endorsed<V>(w: World<V>, rw: RWSet<V>, endorsers: set<Org>) {
    forall l :: l in rw.writes.Keys + rw.policies.Keys ==>
      && (l.space.Implicit? ==> l.space.org in endorsers)
      && (l in w ==> w[l].policy <= endorsers)
  }

  predicate Used<O, V>(chain: seq<Tx<O, V>>, id: string) {
    exists i :: 0 <= i < |chain| && chain[i].id == id
  }

  lemma {:induction false} UsedGrows<O, V>(chain: seq<Tx<O, V>>, tx: Tx<O, V>, id: string)
    ensures Used(chain + [tx], id) <==> Used(chain, id) || tx.id == id
  {
    if Used(chain, id) {
      var i :| 0 <= i < |chain| && chain[i].id == id;
      assert (chain + [tx])[i].id == id;
    }
    assert (chain + [tx])[|chain|] == tx;
  }

  /** What the committing peers ask of the next transaction. */
  predicate Accepts<O, V>(chain: seq<Tx<O, V>>, tx: Tx<O, V>) {
    && tx.height <= |chain|
    && !Used(chain, tx.id)
    && Fresh(Replay(chain), tx.rw)
    && Endorsed(Replay(chain), tx.rw, tx.endorsers)
  }

  predicate Committed<O, V>(chain: seq<Tx<O, V>>) {
    chain == [] ||
    (var n := |chain| - 1; Committed(chain[..n]) && Accepts(chain[..n], chain[n]))
  }

  /** Offers a block of transactions in order, keeping the accepted ones. */
  function Order<O, V>(chain: seq<Tx<O, V>>, proposals: seq<Tx<O, V>>): seq<Tx<O, V>>
    decreases |proposals|
  {
    if proposals == [] then chain
    else Order(if Accepts(chain, proposals[0]) then chain + [proposals[0]] else chain, proposals[1..])
  }

  lemma {:induction false} PrefixWorld<O, V>(chain: seq<Tx<O, V>>, n: nat, m: nat)
    requires m <= n <= |chain|
    ensures WorldAt(chain[..n], m) == WorldAt(chain, m)
  {
    assert chain[..n][..m] == chain[..m];
  }

  lemma {:induction false} Step<O, V>(chain: seq<Tx<O, V>>, n: nat)
    requires n < |chain|
    ensures WorldAt(chain, n + 1) == Apply(WorldAt(chain, n), chain[n].rw, n)
  {
    assert chain[..n + 1][..n] == chain[..n];
  }

  lemma {:induction false} PrefixCommitted<O, V>(chain: seq<Tx<O, V>>, n: nat)
    requires Committed(chain) && n <= |chain|
    ensures Committed(chain[..n])
    ensures n < |chain| ==> Accepts(chain[..n], chain[n])
  {
    var m := |chain| - 1;
    if n == |chain| {
      assert chain[..n] == chain;
    } else if n < m {
      PrefixCommitted(chain[..m], n);
      assert chain[..m][..n] == chain[..n];
    }
  }

  /** An entry was written by the transaction its version names, and has stood since. */
  lemma {:induction false} EntryOrigin<O, V>(chain: seq<Tx<O, V>>, n: nat, l: Loc)
    requires n <= |chain| && l in WorldAt(chain, n)
    ensures var v := WorldAt(chain, n)[l].version;
            && v < n
            && Touched(chain[v].rw, l)
            && (l in chain[v].rw.writes ==> chain[v].rw.writes[l] == Some(WorldAt(chain, n)[l].value))
            && (forall m :: v < m < n ==> !Touched(chain[m].rw, l))
            && (forall m :: v < m <= n ==> At(WorldAt(chain, m), l) == At(WorldAt(chain, n), l))
  {
    if n > 0 {
      Step(chain, n - 1);
      var before := WorldAt(chain, n - 1);
      assert At(WorldAt(chain, n), l) == After(before, chain[n - 1].rw, n - 1, l);
      if !Touched(chain[n - 1].rw, l) {
        assert At(before, l) == At(WorldAt(chain, n), l);
        EntryOrigin(chain, n - 1, l);
      }
    }
  }

  /** A version determines an entry, whatever the heights it is seen at. */
  lemma {:induction false} SameVersionSameEntry<O, V>(chain: seq<Tx<O, V>>, i: nat, j: nat, l: Loc)
    requires i <= |chain| && j <= |chain|
    requires VersionAt(WorldAt(chain, i), l) == VersionAt(WorldAt(chain, j), l)
    ensures At(WorldAt(chain, i), l) == At(WorldAt(chain, j), l)
  {
    if l in WorldAt(chain, i) {
      EntryOrigin(chain, i, l);
      EntryOrigin(chain, j, l);
      var v := WorldAt(chain, i)[l].version;
      assert At(WorldAt(chain, v + 1), l) == At(WorldAt(chain, i), l);
    }
  }

  predicate Observed<V>(rw: RWSet<V>, l: Loc) {
    l in rw.seen || exists q :: q in rw.scans && Matches(q, l)
  }

  /** Two worlds a simulation cannot tell apart. */
  ghost predicate Agree<V>(w: World<V>, u: World<V>, rw: RWSet<V>) {
    forall l :: Observed(rw, l) ==> At(w, l) == At(u, l)
  }

  /** A transaction that passes the version check sees at its commit exactly what its
      endorsers saw: this is what makes an accepted transaction an atomic step. */
  lemma {:induction false} FreshWorldsAgree<O, V>(chain: seq<Tx<O, V>>, i: nat, j: nat, rw: RWSet<V>)
    requires i <= |chain| && j <= |chain|
    requires Fresh(WorldAt(chain, i), rw) && Fresh(WorldAt(chain, j), rw)
    ensures Agree(WorldAt(chain, i), WorldAt(chain, j), rw)
  {
    forall l | Observed(rw, l)
      ensures At(WorldAt(chain, i), l) == At(WorldAt(chain, j), l)
    {
      if l !in rw.seen {
        var q :| q in rw.scans && Matches(q, l);
        assert l in WorldAt(chain, i) <==> l in rw.scans[q];
        assert l in WorldAt(chain, j) <==> l in rw.scans[q];
      }
      SameVersionSameEntry(chain, i, j, l);
    }
  }

  /** Ordering a block only ever appends accepted transactions. */
  lemma {:induction false} OrderCommits<O, V>(chain: seq<Tx<O, V>>, proposals: seq<Tx<O, V>>)
    requires Committed(chain)
    ensures Committed(Order(chain, proposals))
    ensures chain <= Order(chain, proposals)
    decreases |proposals|
  {
    if proposals != [] {
      var next := chain + [proposals[0]];
      assert next[..|chain|] == chain;
      OrderCommits(if Accepts(chain, proposals[0]) then next else chain, proposals[1..]);
    }
  }

  /** The order of keys, and of strings, on the ledger: by code point. */
  predicate Before(a: string, b: string) {
    if b == "" then false
    else if a == "" then true
    else a[0] < b[0] || (a[0] == b[0] && Before(a[1..], b[1..]))
  }

  lemma {:induction false} BeforeTotal(a: string, b: string)
    ensures Before(a, b) || Before(b, a) || a == b
    ensures !(Before(a, b) && (Before(b, a) || a == b))
    decreases |a|
  {
    if a != "" && b != "" {
      BeforeTotal(a[1..], b[1..]);
      assert a == [a[0]] + a[1..] && b == [b[0]] + b[1..];
    }
  }

  lemma {:induction false} BeforeTransitive(a: string, b: string, c: string)
    requires Before(a, b) && Before(b, c)
    ensures Before(a, c)
    decreases |a|
  {
    if a != "" && a[0] == b[0] == c[0] {
      BeforeTransitive(a[1..], b[1..], c[1..]);
    }
  }

  predicate KeyOrder(a: Loc, b: Loc) {
    a.key.Plain? && b.key.Plain? && Before(a.key.name, b.key.name)
  }

  predicate InKeyOrder(rows: seq<Loc>) {
    forall i, j :: 0 <= i < j < |rows| ==> KeyOrder(rows[i], rows[j])
  }

  /** The rows a range query delivers: each matching key once. */
  ghost predicate Lists(rows: seq<Loc>, keys: set<Loc>) {
    && (forall l :: l in rows <==> l in keys)
    && (forall i, j :: 0 <= i < j < |rows| ==> rows[i] != rows[j])
  }

  /** The stub a contract is given: reads come from the committed world, never from the
      transaction's own writes, and everything is recorded in `rw`. */
  class Stub<V> {
    const world: World<V>
    const txId: string
    const client: Org
    const peer: Org
    const transientMap: map<string, string>
    var rw: RWSet<V>

    constructor (world: World<V>, txId: string, client: Org, peer: Org, transientMap: map<string, string>)
      ensures this.world == world && this.txId == txId && this.client == client && this.peer == peer
      ensures this.transientMap == transientMap && rw == Nothing()
    {
      this.world := world;
      this.txId := txId;
      this.client := client;
      this.peer := peer;
      this.transientMap := transientMap;
      this.rw := Nothing();
    }

    method GetState(l: Loc) returns (value: Option<V>)
      modifies this
      ensures rw == old(rw).(seen := old(rw.seen)[l := VersionAt(world, l)])
      ensures value == ValueAt(world, l)
    {
      rw := rw.(seen := rw.seen[l := VersionAt(world, l)]);
      value := ValueAt(world, l);
    }

    method PutState(l: Loc, value: V)
      modifies this
      ensures rw == old(rw).(writes := old(rw.writes)[l := Some(value)])
    {
      rw := rw.(writes := rw.writes[l := Some(value)]);
    }

    method DelState(l: Loc)
      modifies this
      ensures rw == old(rw).(writes := old(rw.writes)[l := None])
    {
      rw := rw.(writes := rw.writes[l := None]);
    }

    method SetStateValidationParameter(l: Loc, orgs: set<Org>)
      modifies this
      ensures rw == old(rw).(policies := old(rw.policies)[l := orgs])
    {
      rw := rw.(policies := rw.policies[l := orgs]);
    }

    /** Plain keys come in key order. Composite keys come in an unspecified one: what uses
        them must not depend on it. */
    method GetStateByRange(q: Query) returns (rows: seq<Loc>)
      modifies this
      ensures rw == old(rw).(scans := old(rw.scans)[q := Scan(world, q)])
      ensures Lists(rows, Scan(world, q).Keys)
      ensures q.PlainKeys? ==> InKeyOrder(rows)
    {
      var remaining := Scan(world, q).Keys;
      rows := [];
      while remaining != {}
        invariant rw == old(rw) && remaining <= Scan(world, q).Keys
        invariant Lists(rows, Scan(world, q).Keys - remaining)
        invariant q.PlainKeys? ==> InKeyOrder(rows)
        invariant q.PlainKeys? ==> forall i, l :: 0 <= i < |rows| && l in remaining ==> KeyOrder(rows[i], l)
      {
        var l := First(q, remaining);
        rows, remaining := rows + [l], remaining - {l};
      }
      rw := rw.(scans := rw.scans[q := Scan(world, q)]);
    }

    static method First(q: Query, ls: set<Loc>) returns (first: Loc)
      requires ls != {} && forall l :: l in ls ==> Matches(q, l)
      ensures first in ls
      ensures q.PlainKeys? ==> forall l :: l in ls && l != first ==> KeyOrder(first, l)
    {
      first :| first in ls;
      var rest := if q.PlainKeys? then ls - {first} else {};
      while rest != {}
        invariant first in ls && rest <= ls
        invariant q.PlainKeys? ==> forall l :: l in ls - rest && l != first ==> KeyOrder(first, l)
      {
        var l :| l in rest;
        BeforeTotal(first.key.name, l.key.name);
        if Before(l.key.name, first.key.name) {
          forall k | k in ls - rest && k != first
            ensures KeyOrder(l, k)
          {
            BeforeTransitive(l.key.name, first.key.name, k.key.name);
          }
          first := l;
        }
        rest := rest - {l};
      }
    }
  }
}
