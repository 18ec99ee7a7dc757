/** The ledger-queries contract: assets, and an index of them by colour that the contract
    keeps by hand in the same key-value store. */
module ColorIndex {
  import opened Wrappers
  import opened Fabric
  import opened CompositeKeys

  const INDEX := "color~name"

  datatype Asset = Asset(docType: string, id: string, color: string, size: int, owner: string, appraisedValue: int)

  /** What a key can hold: an asset, or the null byte of an index entry. */
  datatype Datum = Record(asset: Asset) | Marker

  datatype Fault = Exists | NotFound | NotAnAsset | EmptyKey | BadKey

  datatype Op =
    | CreateAsset(id: string, color: string, size: int, owner: string, appraisedValue: int)
    | DeleteAsset(id: string)
    | TransferAsset(id: string, newOwner: string)
    | TransferAssetByColor(color: string, newOwner: string)
    | InitLedger

  type Ledger = World<Datum>
  type Sets = RWSet<Datum>
  type Chain = seq<Tx<Op, Datum>>

  function AssetKey(id: string): Loc {
    Loc(Channel, Plain(id))
  }

  function IndexKey(color: string, id: string): Loc {
    Loc(Channel, Composite(INDEX, [color, id]))
  }

  function ByColor(color: string): Query {
    PartialKey(Channel, INDEX, [color])
  }

  function AssetAt(w: Ledger, id: string): Result<Asset, Fault> {
    match ValueAt<Datum>(w, AssetKey(id))
    case None => Err(NotFound)
    case Some(Record(asset)) => Ok(asset)
    case Some(Marker) => Err(NotAnAsset)
  }

  function Looked(rw: Sets, w: Ledger, l: Loc): Sets {
    rw.(seen := rw.seen[l := VersionAt(w, l)])
  }

  method ReadAsset(stub: Stub<Datum>, id: string) returns (r: Result<Asset, Fault>)
    modifies stub
    ensures r == AssetAt(stub.world, id)
    ensures stub.rw == Looked(old(stub.rw), stub.world, AssetKey(id))
  {
    var value := stub.GetState(AssetKey(id));
    match value
    case None => return Err(NotFound);
    case Some(Record(asset)) => return Ok(asset);
    case Some(Marker) => return Err(NotAnAsset);
  }

  method AssetExists(stub: Stub<Datum>, id: string) returns (exists_: bool)
    modifies stub
    ensures exists_ <==> AssetKey(id) in stub.world
    ensures stub.rw == Looked(old(stub.rw), stub.world, AssetKey(id))
  {
    var value := stub.GetState(AssetKey(id));
    exists_ := value.Some?;
  }

  // ---- CreateAsset and InitLedger ----

  /** What creating an asset adds to what the transaction has recorded so far. */
  function CreateSets(w: Ledger, rw: Sets, asset: Asset): Result<Sets, Fault> {
    if AssetKey(asset.id) in w then Err(Exists)
    else if asset.id == "" then Err(EmptyKey)
    else if !ValidAttributes([INDEX, asset.color, asset.id]) then Err(BadKey)
    else
      Ok(Looked(rw, w, AssetKey(asset.id)).(
           writes := rw.writes[AssetKey(asset.id) := Some(Record(asset))]
                              [IndexKey(asset.color, asset.id) := Some(Marker)]))
  }

  method CreateAsset(stub: Stub<Datum>, id: string, color: string, size: int, owner: string, appraisedValue: int)
    returns (r: Result<(), Fault>)
    modifies stub
    ensures match CreateSets(stub.world, old(stub.rw), Asset("asset", id, color, size, owner, appraisedValue))
            case Err(e) => r == Err(e)
            case Ok(rw) => r == Ok(()) && stub.rw == rw
    ensures AssetKey(id) in stub.world <==> r == Err(Exists)
    ensures AssetKey(id) !in stub.world && id == "" <==> r == Err(EmptyKey)
  {
    var exists_ := AssetExists(stub, id);
    if exists_ {
      return Err(Exists);
    }
    var asset := Asset("asset", id, color, size, owner, appraisedValue);
    if id == "" {
      return Err(EmptyKey);
    }
    stub.PutState(AssetKey(id), Record(asset));
    assert [INDEX] + [asset.color, asset.id] == [INDEX, asset.color, asset.id];
    var colorNameIndexKey := CreateCompositeKey(INDEX, [asset.color, asset.id]);
    if colorNameIndexKey.None? {
      return Err(BadKey);
    }
    stub.PutState(IndexKey(asset.color, asset.id), Marker);
    r := Ok(());
  }

  const INITIAL_ASSETS := [
    Asset("asset", "asset1", "blue", 5, "Tomoko", 300),
    Asset("asset", "asset2", "red", 5, "Brad", 400),
    Asset("asset", "asset3", "green", 10, "Jin Soo", 500),
    Asset("asset", "asset4", "yellow", 10, "Max", 600),
    Asset("asset", "asset5", "black", 15, "Adriana", 700),
    Asset("asset", "asset6", "white", 15, "Michel", 800)]

  /** Creates the assets one after the other, stopping at the first that fails. */
  function CreateAllSets(w: Ledger, rw: Sets, assets: seq<Asset>): Result<Sets, Fault>
    decreases |assets|
  {
    if assets == [] then Ok(rw)
    else
      match CreateSets(w, rw, assets[0])
      case Err(e) => Err(e)
      case Ok(next) => CreateAllSets(w, next, assets[1..])
  }

  method InitLedger(stub: Stub<Datum>) returns (r: Result<(), Fault>)
    modifies stub
    ensures match CreateAllSets(stub.world, old(stub.rw), INITIAL_ASSETS)
            case Err(e) => r == Err(e)
            case Ok(rw) => r == Ok(()) && stub.rw == rw
  {
    var assets := INITIAL_ASSETS;
    for i := 0 to |assets|
      invariant CreateAllSets(stub.world, old(stub.rw), assets) == CreateAllSets(stub.world, stub.rw, assets[i..])
    {
      var asset := assets[i];
      assert assets[i..][0] == asset && assets[i..][1..] == assets[i + 1..];
      assert asset.docType == "asset";
      var created := CreateAsset(stub, asset.id, asset.color, asset.size, asset.owner, asset.appraisedValue);
      if created.Err? {
        return Err(created.error);
      }
    }
    r := Ok(());
  }

  // ---- DeleteAsset and TransferAsset ----

  function DeleteSets(w: Ledger, id: string): Result<Sets, Fault> {
    match AssetAt(w, id)
    case Err(e) => Err(e)
    case Ok(asset) =>
      if !ValidAttributes([INDEX, asset.color, asset.id]) then Err(BadKey)
      else Ok(Looked(Nothing(), w, AssetKey(id)).(
                writes := map[AssetKey(id) := None, IndexKey(asset.color, asset.id) := None]))
  }

  method DeleteAsset(stub: Stub<Datum>, id: string) returns (r: Result<(), Fault>)
    requires stub.rw == Nothing()
    modifies stub
    ensures match DeleteSets(stub.world, id)
            case Err(e) => r == Err(e)
            case Ok(rw) => r == Ok(()) && stub.rw == rw
    ensures AssetKey(id) !in stub.world <==> r == Err(NotFound)
  {
    var read := ReadAsset(stub, id);
    if read.Err? {
      return Err(read.error);
    }
    var asset := read.value;
    stub.DelState(AssetKey(id));
    assert [INDEX] + [asset.color, asset.id] == [INDEX, asset.color, asset.id];
    var colorNameIndexKey := CreateCompositeKey(INDEX, [asset.color, asset.id]);
    if colorNameIndexKey.None? {
      return Err(BadKey);
    }
    stub.DelState(IndexKey(asset.color, asset.id));
    r := Ok(());
  }

  function TransferSets(w: Ledger, id: string, newOwner: string): Result<Sets, Fault> {
    match AssetAt(w, id)
    case Err(e) => Err(e)
    case Ok(asset) =>
      if id == "" then Err(EmptyKey)
      else Ok(Looked(Nothing(), w, AssetKey(id)).(
                writes := map[AssetKey(id) := Some(Record(asset.(owner := newOwner)))]))
  }

  method TransferAsset(stub: Stub<Datum>, id: string, newOwner: string) returns (r: Result<(), Fault>)
    requires stub.rw == Nothing()
    modifies stub
    ensures match TransferSets(stub.world, id, newOwner)
            case Err(e) => r == Err(e)
            case Ok(rw) => r == Ok(()) && stub.rw == rw
    ensures AssetKey(id) !in stub.world <==> r == Err(NotFound)
  {
    var read := ReadAsset(stub, id);
    if read.Err? {
      return Err(read.error);
    }
    var asset := read.value;
    asset := asset.(owner := newOwner);
    if id == "" {
      return Err(EmptyKey);
    }
    stub.PutState(AssetKey(id), Record(asset));
    r := Ok(());
  }

  // ---- TransferAssetByColor ----

  predicate Names(row: Loc) {
    row.key.Composite? && |row.key.attributes| > 1
  }

  /** The asset keys that a set of index rows names. */
  function Targets(rows: set<Loc>): set<Loc> {
    set row | row in rows && Names(row) :: AssetKey(row.key.attributes[1])
  }

  predicate Ownable(w: Ledger, l: Loc) {
    l in w && w[l].value.Record? && l.key.Plain? && l.key.name != ""
  }

  function SeenAt(w: Ledger, ls: set<Loc>): map<Loc, Option<nat>> {
    map l | l in ls :: VersionAt(w, l)
  }

  function Reowned(w: Ledger, ls: set<Loc>, newOwner: string): map<Loc, Option<Datum>> {
    map l | l in ls && Ownable(w, l) :: Some(Record(w[l].value.asset.(owner := newOwner)))
  }

  /** `None` when some lookup fails. */
  function ByColorSets(w: Ledger, color: string, newOwner: string): Option<Sets> {
    var q := ByColor(color);
    var targets := Targets(Scan(w, q).Keys);
    if !ValidAttributes([INDEX, color]) || exists l :: l in targets && !Ownable(w, l) then None
    else Some(RWSet(SeenAt(w, targets), map[q := Scan(w, q)], Reowned(w, targets, newOwner), map[]))
  }

  lemma {:induction false} OneMoreTarget(rows: seq<Loc>, i: nat)
    requires i < |rows|
    ensures Targets(set k | 0 <= k < i + 1 :: rows[k])
         == Targets(set k | 0 <= k < i :: rows[k])
          + if Names(rows[i]) then {AssetKey(rows[i].key.attributes[1])} else {}
  {
  }

  lemma {:induction false} OneMoreWrite(w: Ledger, ls: set<Loc>, l: Loc, newOwner: string)
    requires Ownable(w, l)
    ensures SeenAt(w, ls + {l}) == SeenAt(w, ls)[l := VersionAt(w, l)]
    ensures Reowned(w, ls + {l}, newOwner)
         == Reowned(w, ls, newOwner)[l := Some(Record(w[l].value.asset.(owner := newOwner)))]
  {
  }

  method TransferAssetByColor(stub: Stub<Datum>, color: string, newOwner: string) returns (r: Result<(), Fault>)
    requires stub.rw == Nothing()
    modifies stub
    ensures match ByColorSets(stub.world, color, newOwner)
            case None => r.Err?
            case Some(rw) => r == Ok(()) && stub.rw == rw
    ensures !ValidAttributes([INDEX, color]) ==> r == Err(BadKey)
  {
    assert [INDEX] + [color] == [INDEX, color];
    var prefix := CreateCompositeKey(INDEX, [color]);
    if prefix.None? {
      return Err(BadKey);
    }
    ghost var w := stub.world;
    var rows := stub.GetStateByRange(ByColor(color));
    ghost var scanned := stub.rw;
    ghost var done: set<Loc> := {};
    for i := 0 to |rows|
      invariant done == Targets(set k | 0 <= k < i :: rows[k])
      invariant forall l :: l in done ==> Ownable(w, l)
      invariant stub.rw == scanned.(seen := SeenAt(w, done), writes := Reowned(w, done, newOwner))
    {
      OneMoreTarget(rows, i);
      if Names(rows[i]) {
        var returnedAssetId := rows[i].key.attributes[1];
        assert rows[i] in Scan(w, ByColor(color)).Keys;
        assert AssetKey(returnedAssetId) in Targets(Scan(w, ByColor(color)).Keys);
        var read := ReadAsset(stub, returnedAssetId);
        if read.Err? {
          return Err(read.error);
        }
        var asset := read.value.(owner := newOwner);
        if returnedAssetId == "" {
          return Err(EmptyKey);
        }
        stub.PutState(AssetKey(returnedAssetId), Record(asset));
        OneMoreWrite(w, done, AssetKey(returnedAssetId), newOwner);
        done := done + {AssetKey(returnedAssetId)};
      }
    }
    assert (set k | 0 <= k < |rows| :: rows[k]) == Scan(w, ByColor(color)).Keys;
    r := Ok(());
  }

  /** What endorsing a call against a committed world records, when it succeeds. */
  function Simulate(op: Op, w: Ledger): Option<Sets> {
    match op
    case CreateAsset(id, color, size, owner, value) =>
      Recorded(CreateSets(w, Nothing(), Asset("asset", id, color, size, owner, value)))
    case DeleteAsset(id) => Recorded(DeleteSets(w, id))
    case TransferAsset(id, newOwner) => Recorded(TransferSets(w, id, newOwner))
    case TransferAssetByColor(color, newOwner) => ByColorSets(w, color, newOwner)
    case InitLedger => Recorded(CreateAllSets(w, Nothing(), INITIAL_ASSETS))
  }

  function Recorded(r: Result<Sets, Fault>): Option<Sets> {
    if r.Ok? then Some(r.value) else None
  }

  predicate EndorsedAt(chain: Chain, tx: Tx<Op, Datum>) {
    tx.height <= |chain| && Simulate(tx.op, WorldAt(chain, tx.height)) == Some(tx.rw)
  }

  predicate Run(chain: Chain) {
    && Committed(chain)
    && forall j {:trigger EndorsedAt(chain, chain[j])} :: 0 <= j < |chain| ==> EndorsedAt(chain, chain[j])
  }
}
