/** What each call of the colour-index contract does to the assets, and when it succeeds,
    in terms of what `ReadAsset` answers. */
module ColorIndexEffects {
  import opened Wrappers
  import opened Fabric
  import opened CompositeKeys
  import opened ColorIndex
  import opened ColorIndexProofs

  /** The assets a new ledger is given. */
  function Initial(id: string): Option<Asset> {
    if id == "asset1" then Some(Asset("asset", "asset1", "blue", 5, "Tomoko", 300))
    else if id == "asset2" then Some(Asset("asset", "asset2", "red", 5, "Brad", 400))
    else if id == "asset3" then Some(Asset("asset", "asset3", "green", 10, "Jin Soo", 500))
    else if id == "asset4" then Some(Asset("asset", "asset4", "yellow", 10, "Max", 600))
    else if id == "asset5" then Some(Asset("asset", "asset5", "black", 15, "Adriana", 700))
    else if id == "asset6" then Some(Asset("asset", "asset6", "white", 15, "Michel", 800))
    else None
  }

  /** What `ReadAsset(id)` answers after a committed call, `before` being its answer until
      then. */
  function AnswerAfter(op: Op, id: string, before: Result<Asset, Fault>): Result<Asset, Fault> {
    match op
    case CreateAsset(created, color, size, owner, appraisedValue) =>
      if created == id then Ok(Asset("asset", id, color, size, owner, appraisedValue)) else before
    case InitLedger => if Initial(id).Some? then Ok(Initial(id).value) else before
    case DeleteAsset(deleted) => if deleted == id then Err(NotFound) else before
    case TransferAsset(transferred, newOwner) => if transferred == id then WithOwner(before, newOwner) else before
    case TransferAssetByColor(color, newOwner) =>
      if before.Ok? && before.value.color == color then WithOwner(before, newOwner) else before
  }

  function WithOwner(r: Result<Asset, Fault>, newOwner: string): Result<Asset, Fault> {
    if r.Ok? then Ok(r.value.(owner := newOwner)) else r
  }

  // ---- Creating assets ----

  lemma {:induction false} OneCreated(w: Ledger, rw: Sets, asset: Asset, next: Sets, version: nat)
    requires CreateSets(w, rw, asset) == Ok(next)
    ensures AssetKey(asset.id) !in w
    ensures ValueAt(Apply(w, next, version), AssetKey(asset.id)) == Some(Record(asset))
    ensures forall l :: l != AssetKey(asset.id) && l != IndexKey(asset.color, asset.id) ==>
      At(Apply(w, next, version), l) == At(Apply(w, rw, version), l)
  {
    var u, v, key := Apply(w, rw, version), Apply(w, next, version), AssetKey(asset.id);
    assert At(v, key) == After(w, next, version, key);
    forall l | l != key && l != IndexKey(asset.color, asset.id)
      ensures At(v, l) == At(u, l)
    {
      assert At(u, l) == After(w, rw, version, l) && At(v, l) == After(w, next, version, l);
    }
  }

  predicate KeyOfOne(assets: seq<Asset>, l: Loc) {
    exists asset :: asset in assets && (l == AssetKey(asset.id) || l == IndexKey(asset.color, asset.id))
  }

  predicate IdOfOne(assets: seq<Asset>, id: string) {
    exists asset :: asset in assets && asset.id == id
  }

  /** `u` is `w` with new assets. */
  ghost predicate Created(w: Ledger, u: Ledger, assets: seq<Asset>) {
    && (forall asset :: asset in assets ==> AssetAt(u, asset.id) == Ok(asset))
    && (forall l :: !KeyOfOne(assets, l) ==> At(u, l) == At(w, l))
  }

  lemma {:induction false} OneMoreCreated(w: Ledger, u: Ledger, v: Ledger, assets: seq<Asset>)
    requires assets != [] && AllDifferent(assets) && Created(u, v, assets[1..])
    requires ValueAt(u, AssetKey(assets[0].id)) == Some(Record(assets[0]))
    requires forall l :: l != AssetKey(assets[0].id) && l != IndexKey(assets[0].color, assets[0].id) ==>
      At(u, l) == At(w, l)
    ensures Created(w, v, assets)
  {
    var first, rest := assets[0], assets[1..];
    assert forall i :: 0 <= i < |rest| ==> rest[i] == assets[i + 1];
    assert forall asset :: asset in assets ==> asset == first || asset in rest;
    assert forall asset :: asset in rest ==> asset in assets && asset.id != first.id;
    assert first in assets;
    assert !KeyOfOne(rest, AssetKey(first.id));
    forall l | !KeyOfOne(assets, l)
      ensures At(v, l) == At(w, l)
    {
      assert !KeyOfOne(rest, l);
    }
  }

  lemma {:induction false} AllCreated(w: Ledger, rw: Sets, assets: seq<Asset>, end: Sets, version: nat)
    requires CreateAllSets(w, rw, assets) == Ok(end) && AllDifferent(assets)
    ensures Created(Apply(w, rw, version), Apply(w, end, version), assets)
    decreases |assets|
  {
    if assets != [] {
      var next := CreateSets(w, rw, assets[0]).value;
      OneCreated(w, rw, assets[0], next, version);
      AllCreated(w, next, assets[1..], end, version);
      OneMoreCreated(Apply(w, rw, version), Apply(w, next, version), Apply(w, end, version), assets);
    }
  }

  lemma {:induction false} InitialIds(asset: Asset)
    ensures asset in INITIAL_ASSETS <==> Initial(asset.id) == Some(asset)
  {
  }

  lemma {:induction false} InitialNamed(id: string)
    ensures match Initial(id)
            case Some(asset) => asset.id == id && asset in INITIAL_ASSETS
            case None => !IdOfOne(INITIAL_ASSETS, id)
  {
    match Initial(id)
    case Some(asset) =>
      InitialIds(asset);
    case None =>
      forall asset | asset in INITIAL_ASSETS
        ensures asset.id != id
      {
        InitialIds(asset);
      }
  }

  // ---- The effect of each call ----

  /** The keys a call may change. */
  predicate Concerns(op: Op, w: Ledger, l: Loc) {
    match op
    case CreateAsset(id, color, _, _, _) => l == AssetKey(id) || l == IndexKey(color, id)
    case InitLedger => KeyOfOne(INITIAL_ASSETS, l)
    case DeleteAsset(id) => l == AssetKey(id) || (AssetAt(w, id).Ok? && l == IndexKey(AssetAt(w, id).value.color, id))
    case TransferAsset(id, _) => l == AssetKey(id)
    case TransferAssetByColor(color, _) => IsColored(w, l, color)
  }

  /** `u` is `w` after a call. */
  ghost predicate Follows(op: Op, w: Ledger, u: Ledger) {
    && (forall id :: AssetAt(u, id) == AnswerAfter(op, id, AssetAt(w, id)))
    && (forall l :: !Concerns(op, w, l) ==> At(u, l) == At(w, l))
  }

  lemma {:induction false} CreateFollows(w: Ledger, asset: Asset, rw: Sets, version: nat)
    requires CreateSets(w, Nothing(), asset) == Ok(rw) && asset.docType == "asset"
    ensures Follows(CreateAsset(asset.id, asset.color, asset.size, asset.owner, asset.appraisedValue), w,
                    Apply(w, rw, version))
  {
    ApplyNothing(w, version);
    OneCreated(w, Nothing(), asset, rw, version);
    assert forall id :: id != asset.id ==> At(Apply(w, rw, version), AssetKey(id)) == At(w, AssetKey(id));
  }

  lemma {:induction false} CreatedAnswers(w: Ledger, u: Ledger, assets: seq<Asset>, id: string, found: Option<Asset>)
    requires Created(w, u, assets)
    requires match found
             case Some(asset) => asset in assets && asset.id == id
             case None => !IdOfOne(assets, id)
    ensures AssetAt(u, id) == if found.Some? then Ok(found.value) else AssetAt(w, id)
  {
    if found.None? {
      assert !KeyOfOne(assets, AssetKey(id));
    }
  }

  lemma {:induction false} InitFollows(w: Ledger, u: Ledger)
    requires Created(w, u, INITIAL_ASSETS)
    ensures Follows(InitLedger, w, u)
  {
    forall id
      ensures AssetAt(u, id) == if Initial(id).Some? then Ok(Initial(id).value) else AssetAt(w, id)
    {
      InitialNamed(id);
      CreatedAnswers(w, u, INITIAL_ASSETS, id, Initial(id));
    }
  }

  lemma {:induction false} DeleteFollows(w: Ledger, id: string, rw: Sets, version: nat)
    requires Indexed(w) && DeleteSets(w, id) == Ok(rw)
    ensures Follows(DeleteAsset(id), w, Apply(w, rw, version))
  {
    var u, color := Apply(w, rw, version), AssetAt(w, id).value.color;
    assert Fits(w, AssetKey(id), w[AssetKey(id)]);
    assert rw.writes == map[AssetKey(id) := None, IndexKey(color, id) := None] && rw.policies == map[];
    forall l
      ensures At(u, l) == if l == AssetKey(id) || l == IndexKey(color, id) then None else At(w, l)
    {
      assert At(u, l) == After(w, rw, version, l);
    }
  }

  lemma {:induction false} TransferFollows(w: Ledger, id: string, newOwner: string, rw: Sets, version: nat)
    requires TransferSets(w, id, newOwner) == Ok(rw)
    ensures Follows(TransferAsset(id, newOwner), w, Apply(w, rw, version))
  {
    var u := Apply(w, rw, version);
    forall l
      ensures l != AssetKey(id) ==> At(u, l) == At(w, l)
      ensures ValueAt(u, AssetKey(id)) == Some(Record(AssetAt(w, id).value.(owner := newOwner)))
    {
      assert At(u, l) == After(w, rw, version, l);
      assert At(u, AssetKey(id)) == After(w, rw, version, AssetKey(id));
    }
    assert forall other :: other != id ==> At(u, AssetKey(other)) == At(w, AssetKey(other));
  }

  lemma {:induction false} ByColorFollows(w: Ledger, color: string, newOwner: string, rw: Sets, version: nat)
    requires Indexed(w) && ByColorSets(w, color, newOwner) == Some(rw)
    ensures Follows(TransferAssetByColor(color, newOwner), w, Apply(w, rw, version))
  {
    var u := Apply(w, rw, version);
    ByColorEffect(w, color, newOwner, rw, version);
    forall id
      ensures AssetAt(u, id) == AnswerAfter(TransferAssetByColor(color, newOwner), id, AssetAt(w, id))
    {
      assert AssetAt(u, id) == Repainted(AssetAt(w, id), color, newOwner);
    }
  }

  lemma {:induction false} StepFollows(w: Ledger, op: Op, version: nat, rw: Sets)
    requires Indexed(w) && Simulate(op, w) == Some(rw)
    ensures Follows(op, w, Apply(w, rw, version))
  {
    match op
    case CreateAsset(id, color, size, owner, value) =>
      CreateFollows(w, Asset("asset", id, color, size, owner, value), rw, version);
    case InitLedger =>
      ApplyNothing(w, version);
      InitialAssetsDiffer();
      AllCreated(w, Nothing(), INITIAL_ASSETS, rw, version);
      InitFollows(w, Apply(w, rw, version));
    case DeleteAsset(id) => DeleteFollows(w, id, rw, version);
    case TransferAsset(id, newOwner) => TransferFollows(w, id, newOwner, rw, version);
    case TransferAssetByColor(color, newOwner) => ByColorFollows(w, color, newOwner, rw, version);
  }

  /** Every committed call, whenever it was endorsed, does at its place in the history
      exactly what it says to what `ReadAsset` answers, and leaves all other keys as they
      were. */
  lemma {:induction false} EachCallFollows(chain: Chain, n: nat)
    requires Run(chain) && n < |chain|
    ensures Follows(chain[n].op, WorldAt(chain, n), WorldAt(chain, n + 1))
  {
    HistoryIsIndexed(chain, n);
    RunPrefix(chain, n);
    AcceptedIsAtomic(chain[..n], chain[n]);
    Step(chain, n);
    StepFollows(WorldAt(chain, n), chain[n].op, n, chain[n].rw);
  }

  // ---- Which calls succeed ----

  predicate Possible(op: Op, w: Ledger) {
    match op
    case CreateAsset(id, color, _, _, _) =>
      AssetAt(w, id).Err? && id != "" && ValidAttribute(id) && ValidAttribute(color)
    case InitLedger => forall asset :: asset in INITIAL_ASSETS ==> AssetAt(w, asset.id).Err?
    case DeleteAsset(id) => AssetAt(w, id).Ok?
    case TransferAsset(id, _) => AssetAt(w, id).Ok?
    case TransferAssetByColor(color, _) => ValidAttribute(color)
  }

  lemma {:induction false} LawfulParts(color: string, id: string)
    ensures ValidAttributes([INDEX, color, id]) <==> ValidAttribute(color) && ValidAttribute(id)
    ensures ValidAttributes([INDEX, color]) <==> ValidAttribute(color)
  {
    var parts, prefix := [INDEX, color, id], [INDEX, color];
    if ValidAttributes(parts) {
      assert ValidAttribute(parts[1]) && ValidAttribute(parts[2]);
    }
    if ValidAttributes(prefix) {
      assert ValidAttribute(prefix[1]);
    }
  }

  lemma {:induction false} Found(w: Ledger, id: string)
    requires Indexed(w)
    ensures AssetAt(w, id).Ok? <==> AssetKey(id) in w
    ensures AssetAt(w, id).Ok? ==> id != "" && ValidAttributes([INDEX, AssetAt(w, id).value.color, id])
    ensures AssetAt(w, id).Ok? ==> AssetAt(w, id).value.id == id
  {
    if AssetKey(id) in w {
      assert Fits(w, AssetKey(id), w[AssetKey(id)]);
    }
  }

  lemma {:induction false} AllCreatable(w: Ledger, rw: Sets, assets: seq<Asset>)
    requires Indexed(w)
    requires forall asset :: asset in assets ==>
      asset.id != "" && ValidAttribute(asset.color) && ValidAttribute(asset.id)
    ensures CreateAllSets(w, rw, assets).Ok? <==> forall asset :: asset in assets ==> AssetAt(w, asset.id).Err?
    decreases |assets|
  {
    if assets != [] {
      var rest := assets[1..];
      Found(w, assets[0].id);
      LawfulParts(assets[0].color, assets[0].id);
      assert forall asset :: asset in rest ==> asset in assets;
      assert forall asset :: asset in assets ==> asset == assets[0] || asset in rest;
      assert assets[0] in assets;
      if CreateSets(w, rw, assets[0]).Ok? {
        AllCreatable(w, CreateSets(w, rw, assets[0]).value, rest);
      }
    }
  }

  lemma {:induction false} InitialAreLawful(asset: Asset)
    requires asset in INITIAL_ASSETS
    ensures asset.id != "" && ValidAttribute(asset.color) && ValidAttribute(asset.id)
  {
    InitialTexts();
  }

  lemma {:induction false} InitialTexts()
    ensures forall id :: id in ["asset1", "asset2", "asset3", "asset4", "asset5", "asset6"] ==> ValidAttribute(id)
    ensures forall color :: color in ["blue", "red", "green", "yellow", "black", "white"] ==> ValidAttribute(color)
  {
  }

  /** In every history a call succeeds exactly when the assets it needs are there or not
      there and its arguments can be keys: the index is never in the way. */
  lemma {:induction false} SucceedsExactlyWhen(w: Ledger, op: Op)
    requires Indexed(w)
    ensures Simulate(op, w).Some? <==> Possible(op, w)
  {
    match op
    case CreateAsset(id, color, _, _, _) =>
      Found(w, id);
      LawfulParts(color, id);
    case InitLedger =>
      forall asset | asset in INITIAL_ASSETS { InitialAreLawful(asset); }
      AllCreatable(w, Nothing(), INITIAL_ASSETS);
    case DeleteAsset(id) => Found(w, id);
    case TransferAsset(id, _) => Found(w, id);
    case TransferAssetByColor(color, _) =>
      LawfulParts(color, "");
      forall l { TargetsAreTheColor(w, color, l); }
  }

  lemma {:induction false} WritesInChannel(op: Op, w: Ledger)
    requires Indexed(w) && Simulate(op, w).Some?
    ensures forall l :: l in Simulate(op, w).value.writes ==> l.space == Channel
  {
    match op
    case CreateAsset(_, _, _, _, _) =>
    case InitLedger => CreatesInChannel(w, Nothing(), INITIAL_ASSETS);
    case DeleteAsset(_) =>
    case TransferAsset(_, _) =>
    case TransferAssetByColor(_, _) =>
  }

  lemma {:induction false} CreatesInChannel(w: Ledger, rw: Sets, assets: seq<Asset>)
    requires CreateAllSets(w, rw, assets).Ok? && forall l :: l in rw.writes ==> l.space == Channel
    ensures forall l :: l in CreateAllSets(w, rw, assets).value.writes ==> l.space == Channel
    decreases |assets|
  {
    if assets != [] {
      CreatesInChannel(w, CreateSets(w, rw, assets[0]).value, assets[1..]);
    }
  }

  /** Such a call, endorsed at the current height, is accepted whoever endorses it. */
  lemma {:induction false} AcceptedAtOnce(chain: Chain, op: Op, txId: string, endorsers: set<Org>)
    returns (tx: Tx<Op, Datum>)
    requires Run(chain) && Possible(op, Replay(chain)) && !Used(chain, txId)
    ensures tx.op == op && tx.id == txId && tx.endorsers == endorsers && Run(chain + [tx])
  {
    var w := Replay(chain);
    assert chain[..|chain|] == chain;
    HistoryIsIndexed(chain, |chain|);
    SucceedsExactlyWhen(w, op);
    tx := Tx(txId, op, |chain|, endorsers, Simulate(op, w).value);
    SimulationIsFresh(op, w);
    WritesInChannel(op, w);
    forall l | l in tx.rw.writes.Keys + tx.rw.policies.Keys
      ensures l.space == Channel && (l in w ==> w[l].policy <= endorsers)
    {
      assert l in w ==> Fits(w, l, w[l]);
    }
    RunGrows(chain, tx);
  }

  lemma {:induction false} RunGrows(chain: Chain, tx: Tx<Op, Datum>)
    requires Run(chain) && EndorsedAt(chain, tx) && Accepts(chain, tx)
    ensures Run(chain + [tx])
  {
    var next := chain + [tx];
    assert next[..|chain|] == chain;
    forall j | 0 <= j < |next|
      ensures EndorsedAt(next, next[j])
    {
      assert j < |chain| ==> EndorsedAt(chain, chain[j]);
      PrefixWorld(next, |chain|, next[j].height);
    }
  }
}
