/** The state-based-endorsement contract: every asset's key asks for the endorsement of the
    organization that owns the asset. */
module AssetContract {
  import opened Wrappers
  import opened Fabric

  datatype Asset = Asset(id: string, value: int, owner: string, ownerOrg: Org)

  datatype Fault = Exists | NotFound

  datatype Op =
    | CreateAsset(id: string, value: int, owner: string)
    | UpdateAsset(id: string, newValue: int)
    | DeleteAsset(id: string)
    | TransferAsset(id: string, newOwner: string, newOwnerOrg: Org)

  datatype Call = Call(client: Org, op: Op)

  type Ledger = World<Asset>
  type Sets = RWSet<Asset>
  type Chain = seq<Tx<Call, Asset>>

  function AssetKey(id: string): Loc {
    Loc(Channel, Plain(id))
  }

  function Looked(w: Ledger, id: string): map<Loc, Option<nat>> {
    map[AssetKey(id) := VersionAt(w, AssetKey(id))]
  }

  method AssetExists(stub: Stub<Asset>, id: string) returns (exists_: bool)
    modifies stub
    ensures exists_ <==> AssetKey(id) in stub.world
    ensures stub.rw == old(stub.rw).(seen := old(stub.rw.seen) + Looked(stub.world, id))
  {
    var buffer := stub.GetState(AssetKey(id));
    exists_ := buffer.Some?;
  }

  method ReadAsset(stub: Stub<Asset>, id: string) returns (r: Result<Asset, Fault>)
    modifies stub
    ensures r == (match ValueAt(stub.world, AssetKey(id)) case None => Err(NotFound) case Some(asset) => Ok(asset))
    ensures stub.rw == old(stub.rw).(seen := old(stub.rw.seen) + Looked(stub.world, id))
  {
    var exists_ := AssetExists(stub, id);
    if !exists_ {
      return Err(NotFound);
    }
    var asset := stub.GetState(AssetKey(id));
    r := Ok(asset.value);
  }

  method SetStateBasedEndorsement(stub: Stub<Asset>, id: string, ownerOrg: Org)
    modifies stub
    ensures stub.rw == old(stub.rw).(policies := old(stub.rw.policies)[AssetKey(id) := {ownerOrg}])
  {
    stub.SetStateValidationParameter(AssetKey(id), {ownerOrg});
  }

  function CreateSets(w: Ledger, client: Org, id: string, value: int, owner: string): Result<Sets, Fault> {
    if AssetKey(id) in w then Err(Exists)
    else Ok(RWSet(Looked(w, id), map[],
                  map[AssetKey(id) := Some(Asset(id, value, owner, client))], map[AssetKey(id) := {client}]))
  }

  method CreateAsset(stub: Stub<Asset>, id: string, value: int, owner: string) returns (r: Result<(), Fault>)
    requires stub.rw == Nothing()
    modifies stub
    ensures match CreateSets(stub.world, stub.client, id, value, owner)
            case Err(e) => r == Err(e)
            case Ok(rw) => r == Ok(()) && stub.rw == rw
    ensures r == if AssetKey(id) in stub.world then Err(Exists) else Ok(())
  {
    var exists_ := AssetExists(stub, id);
    if exists_ {
      return Err(Exists);
    }
    var ownerOrg := stub.client;
    stub.PutState(AssetKey(id), Asset(id, value, owner, ownerOrg));
    SetStateBasedEndorsement(stub, id, ownerOrg);
    r := Ok(());
  }

  function UpdateSets(w: Ledger, id: string, newValue: int): Result<Sets, Fault> {
    match ValueAt(w, AssetKey(id))
    case None => Err(NotFound)
    case Some(asset) => Ok(RWSet(Looked(w, id), map[], map[AssetKey(id) := Some(asset.(value := newValue))], map[]))
  }

  method UpdateAsset(stub: Stub<Asset>, id: string, newValue: int) returns (r: Result<(), Fault>)
    requires stub.rw == Nothing()
    modifies stub
    ensures match UpdateSets(stub.world, id, newValue)
            case Err(e) => r == Err(e)
            case Ok(rw) => r == Ok(()) && stub.rw == rw
    ensures r == if AssetKey(id) in stub.world then Ok(()) else Err(NotFound)
  {
    var read := ReadAsset(stub, id);
    if read.Err? {
      return Err(read.error);
    }
    var asset := read.value;
    asset := asset.(value := newValue);
    stub.PutState(AssetKey(id), asset);
    r := Ok(());
  }

  function DeleteSets(w: Ledger, id: string): Result<Sets, Fault> {
    if AssetKey(id) !in w then Err(NotFound)
    else Ok(RWSet(Looked(w, id), map[], map[AssetKey(id) := None], map[]))
  }

  method DeleteAsset(stub: Stub<Asset>, id: string) returns (r: Result<(), Fault>)
    requires stub.rw == Nothing()
    modifies stub
    ensures match DeleteSets(stub.world, id)
            case Err(e) => r == Err(e)
            case Ok(rw) => r == Ok(()) && stub.rw == rw
    ensures r == if AssetKey(id) in stub.world then Ok(()) else Err(NotFound)
  {
    var exists_ := AssetExists(stub, id);
    if !exists_ {
      return Err(NotFound);
    }
    stub.DelState(AssetKey(id));
    r := Ok(());
  }

  /** The asset is written under the id that was asked for, its policy under its own. */
  function TransferSets(w: Ledger, id: string, newOwner: string, newOwnerOrg: Org): Result<Sets, Fault> {
    match ValueAt(w, AssetKey(id))
    case None => Err(NotFound)
    case Some(asset) =>
      Ok(RWSet(Looked(w, id), map[],
               map[AssetKey(id) := Some(asset.(owner := newOwner, ownerOrg := newOwnerOrg))],
               map[AssetKey(asset.id) := {newOwnerOrg}]))
  }

  method TransferAsset(stub: Stub<Asset>, id: string, newOwner: string, newOwnerOrg: Org) returns (r: Result<(), Fault>)
    requires stub.rw == Nothing()
    modifies stub
    ensures match TransferSets(stub.world, id, newOwner, newOwnerOrg)
            case Err(e) => r == Err(e)
            case Ok(rw) => r == Ok(()) && stub.rw == rw
    ensures r == if AssetKey(id) in stub.world then Ok(()) else Err(NotFound)
  {
    var read := ReadAsset(stub, id);
    if read.Err? {
      return Err(read.error);
    }
    var asset := read.value;
    asset := asset.(owner := newOwner);
    asset := asset.(ownerOrg := newOwnerOrg);
    stub.PutState(AssetKey(id), asset);
    SetStateBasedEndorsement(stub, asset.id, newOwnerOrg);
    r := Ok(());
  }

  function Simulate(call: Call, w: Ledger): Result<Sets, Fault> {
    match call.op
    case CreateAsset(id, value, owner) => CreateSets(w, call.client, id, value, owner)
    case UpdateAsset(id, newValue) => UpdateSets(w, id, newValue)
    case DeleteAsset(id) => DeleteSets(w, id)
    case TransferAsset(id, newOwner, newOwnerOrg) => TransferSets(w, id, newOwner, newOwnerOrg)
  }

  predicate EndorsedAt(chain: Chain, tx: Tx<Call, Asset>) {
    tx.height <= |chain| && Simulate(tx.op, WorldAt(chain, tx.height)) == Ok(tx.rw)
  }

  predicate Run(chain: Chain) {
    && Committed(chain)
    && forall j {:trigger EndorsedAt(chain, chain[j])} :: 0 <= j < |chain| ==> EndorsedAt(chain, chain[j])
  }

  // ---- What every history keeps ----

  lemma {:induction false} SimulatesAlike(call: Call, w: Ledger, u: Ledger, rw: Sets)
    requires Simulate(call, w) == Ok(rw) && Agree(w, u, rw)
    ensures Simulate(call, u) == Ok(rw) && Fresh(w, rw)
  {
    assert AssetKey(call.op.id) in rw.seen;
    assert At(w, AssetKey(call.op.id)) == At(u, AssetKey(call.op.id));
  }

  /** An accepted transaction does what running it alone, at its commit, would do. */
  lemma {:induction false} AcceptedIsAtomic(chain: Chain, tx: Tx<Call, Asset>)
    requires EndorsedAt(chain, tx) && Accepts(chain, tx)
    ensures Simulate(tx.op, Replay(chain)) == Ok(tx.rw)
  {
    var w := WorldAt(chain, tx.height);
    assert chain[..|chain|] == chain;
    SimulatesAlike(tx.op, w, w, tx.rw);
    FreshWorldsAgree(chain, tx.height, |chain|, tx.rw);
    SimulatesAlike(tx.op, w, Replay(chain), tx.rw);
  }

  lemma {:induction false} CommittedIsAtomic(chain: Chain, n: nat)
    requires Run(chain) && n < |chain|
    ensures Simulate(chain[n].op, WorldAt(chain, n)) == Ok(chain[n].rw)
    ensures Endorsed(WorldAt(chain, n), chain[n].rw, chain[n].endorsers)
  {
    PrefixCommitted(chain, n);
    assert EndorsedAt(chain, chain[n]);
    PrefixWorld(chain, n, chain[n].height);
    AcceptedIsAtomic(chain[..n], chain[n]);
  }

  predicate SealedEntry(l: Loc, e: Entry<Asset>) {
    l == AssetKey(e.value.id) && e.policy == {e.value.ownerOrg}
  }

  ghost predicate Sealed(w: Ledger) {
    forall l :: l in w ==> SealedEntry(l, w[l])
  }

  /** What a call makes of the asset it names. */
  function Outcome(call: Call, asset: Option<Asset>): Option<Asset> {
    match call.op
    case CreateAsset(id, value, owner) => Some(Asset(id, value, owner, call.client))
    case UpdateAsset(_, newValue) => if asset.None? then None else Some(asset.value.(value := newValue))
    case DeleteAsset(_) => None
    case TransferAsset(_, newOwner, newOwnerOrg) =>
      if asset.None? then None else Some(asset.value.(owner := newOwner, ownerOrg := newOwnerOrg))
  }

  lemma {:induction false} StepEffect(call: Call, w: Ledger, rw: Sets, version: nat, l: Loc)
    requires Sealed(w) && Simulate(call, w) == Ok(rw)
    ensures At(Apply(w, rw, version), l) ==
            if l != AssetKey(call.op.id) then At(w, l)
            else match Outcome(call, ValueAt(w, l))
                 case None => None
                 case Some(asset) => Some(Entry(asset, version, {asset.ownerOrg}))
    ensures l in w ==> SealedEntry(l, w[l])
  {
    assert At(Apply(w, rw, version), l) == After(w, rw, version, l);
    var key := AssetKey(call.op.id);
    assert key in w ==> SealedEntry(key, w[key]);
  }

  lemma {:induction false} StepKeeps(call: Call, w: Ledger, rw: Sets, version: nat)
    requires Sealed(w) && Simulate(call, w) == Ok(rw)
    ensures Sealed(Apply(w, rw, version))
  {
    var u := Apply(w, rw, version);
    forall l | l in u
      ensures SealedEntry(l, u[l])
    {
      StepEffect(call, w, rw, version, l);
    }
  }

  /** Over every run, an asset sits under its own id and its key's policy is exactly the
      organization that owns it. */
  lemma {:induction false} HistoryIsSealed(chain: Chain, n: nat)
    requires Run(chain) && n <= |chain|
    ensures Sealed(WorldAt(chain, n))
  {
    if n > 0 {
      HistoryIsSealed(chain, n - 1);
      CommittedIsAtomic(chain, n - 1);
      Step(chain, n - 1);
      StepKeeps(chain[n - 1].op, WorldAt(chain, n - 1), chain[n - 1].rw, n - 1);
    }
  }

  /** Every committed call does to the asset it names exactly what it says, at its place in
      the history, touches no other, and if the asset existed its owner endorsed the call. */
  lemma {:induction false} AssetStep(chain: Chain, n: nat, id: string)
    requires Run(chain) && n < |chain|
    ensures var before, after := ValueAt(WorldAt(chain, n), AssetKey(id)), ValueAt(WorldAt(chain, n + 1), AssetKey(id));
            if chain[n].op.op.id != id then
              At(WorldAt(chain, n + 1), AssetKey(id)) == At(WorldAt(chain, n), AssetKey(id))
            else
              && after == Outcome(chain[n].op, before)
              && (before.None? <==> chain[n].op.op.CreateAsset?)
              && (before.Some? ==> before.value.ownerOrg in chain[n].endorsers)
  {
    var w := WorldAt(chain, n);
    HistoryIsSealed(chain, n);
    CommittedIsAtomic(chain, n);
    Step(chain, n);
    StepEffect(chain[n].op, w, chain[n].rw, n, AssetKey(id));
    if chain[n].op.op.id == id && AssetKey(id) in w {
      assert AssetKey(id) in chain[n].rw.writes;
    }
  }

  predicate Holds(w: Ledger, id: string, e: Entry<Asset>) {
    AssetKey(id) in w && w[AssetKey(id)] == e
  }

  lemma {:induction false} OwnerGuards(chain: Chain, n: nat, id: string, e: Entry<Asset>)
    requires Run(chain) && n < |chain| && e.value.ownerOrg !in chain[n].endorsers
    requires Holds(WorldAt(chain, n), id, e)
    ensures Holds(WorldAt(chain, n + 1), id, e)
  {
    AssetStep(chain, n, id);
  }

  predicate Stays(chain: Chain, k: nat, id: string, e: Entry<Asset>)
    requires k < |chain|
  {
    Holds(WorldAt(chain, k), id, e) ==> Holds(WorldAt(chain, k + 1), id, e)
  }

  lemma {:induction false} StaysThroughout(chain: Chain, m: nat, n: nat, id: string, e: Entry<Asset>)
    requires m <= n <= |chain| && Holds(WorldAt(chain, m), id, e)
    requires forall k :: m <= k < n ==> Stays(chain, k, id, e)
    ensures Holds(WorldAt(chain, n), id, e)
  {
    if m < n {
      StaysThroughout(chain, m, n - 1, id, e);
      assert Stays(chain, n - 1, id, e);
    }
  }

  /** An organization endorses none of the transactions from `m` to before `n`. */
  predicate Silent(chain: Chain, m: nat, n: nat, org: Org)
    requires n <= |chain|
  {
    forall k :: m <= k < n ==> org !in chain[k].endorsers
  }

  /** While the owning organization endorses nothing, nothing happens to its assets, who
      ever submits and endorses. */
  lemma {:induction false} NothingWithoutTheOwner(chain: Chain, m: nat, n: nat, id: string, e: Entry<Asset>)
    requires Run(chain) && m <= n <= |chain|
    requires Holds(WorldAt(chain, m), id, e)
    requires Silent(chain, m, n, e.value.ownerOrg)
    ensures Holds(WorldAt(chain, n), id, e)
  {
    forall k | m <= k < n
      ensures Stays(chain, k, id, e)
    {
      if Holds(WorldAt(chain, k), id, e) {
        OwnerGuards(chain, k, id, e);
      }
    }
    StaysThroughout(chain, m, n, id, e);
  }

  // ---- Which calls succeed ----

  function OwnerAt(w: Ledger, id: string): Option<Org> {
    if AssetKey(id) in w then Some(w[AssetKey(id)].value.ownerOrg) else None
  }

  /** A call succeeds exactly when it creates an asset that is not there, or is about one
      that is. */
  lemma {:induction false} SucceedsExactlyWhen(call: Call, w: Ledger)
    ensures Simulate(call, w).Ok? <==> (call.op.CreateAsset? <==> OwnerAt(w, call.op.id).None?)
  {
  }

  lemma {:induction false} TouchesItsAsset(call: Call, w: Ledger, rw: Sets, l: Loc)
    requires Sealed(w) && Simulate(call, w) == Ok(rw)
    ensures l in rw.writes.Keys + rw.policies.Keys <==> l == AssetKey(call.op.id)
  {
    var key := AssetKey(call.op.id);
    assert key in w ==> SealedEntry(key, w[key]);
  }

  /** Endorsed at the current height, a call is accepted if and only if the organization that
      owns its asset, where there is one, is among the endorsers. */
  lemma {:induction false} AcceptedExactlyFromOwner(chain: Chain, tx: Tx<Call, Asset>)
    requires Run(chain) && EndorsedAt(chain, tx) && tx.height == |chain| && !Used(chain, tx.id)
    ensures Accepts(chain, tx) <==>
            match OwnerAt(Replay(chain), tx.op.op.id)
            case None => true
            case Some(owner) => owner in tx.endorsers
  {
    var w, key := Replay(chain), AssetKey(tx.op.op.id);
    assert chain[..|chain|] == chain;
    HistoryIsSealed(chain, |chain|);
    SimulatesAlike(tx.op, w, w, tx.rw);
    assert key in w ==> SealedEntry(key, w[key]);
    TouchesItsAsset(tx.op, w, tx.rw, key);
    forall l | l in tx.rw.writes.Keys + tx.rw.policies.Keys
      ensures l == key
    {
      TouchesItsAsset(tx.op, w, tx.rw, l);
    }
  }
}
