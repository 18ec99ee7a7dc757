/** The colour index always tells the truth, and bulk transfers by colour rest on it. */
module ColorIndexProofs {
  import opened Wrappers
  import opened Fabric
  import opened CompositeKeys
  import opened ColorIndex

  // ---- Accepted transactions are atomic ----

  lemma {:induction false} CreateAllSeen(w: Ledger, rw: Sets, assets: seq<Asset>)
    requires CreateAllSets(w, rw, assets).Ok?
    requires forall l :: l in rw.seen ==> rw.seen[l] == VersionAt(w, l)
    ensures var end := CreateAllSets(w, rw, assets).value;
            && end.scans == rw.scans && end.policies == rw.policies && rw.seen.Keys <= end.seen.Keys
            && (forall l :: l in end.seen ==> end.seen[l] == VersionAt(w, l))
    decreases |assets|
  {
    if assets != [] {
      CreateAllSeen(w, CreateSets(w, rw, assets[0]).value, assets[1..]);
    }
  }

  lemma {:induction false} CreateAllAlike(w: Ledger, u: Ledger, rw: Sets, assets: seq<Asset>, end: Sets)
    requires CreateAllSets(w, rw, assets) == Ok(end)
    requires forall l :: l in rw.seen ==> rw.seen[l] == VersionAt(w, l)
    requires forall l :: l in end.seen ==> At(w, l) == At(u, l)
    ensures CreateAllSets(u, rw, assets) == Ok(end)
    decreases |assets|
  {
    if assets != [] {
      var next := CreateSets(w, rw, assets[0]).value;
      CreateAllSeen(w, next, assets[1..]);
      assert AssetKey(assets[0].id) in next.seen;
      CreateAllAlike(w, u, next, assets[1..], end);
    }
  }

  lemma {:induction false} ByColorAlike(w: Ledger, u: Ledger, color: string, newOwner: string, rw: Sets)
    requires ByColorSets(w, color, newOwner) == Some(rw)
    requires Scan(w, ByColor(color)) == Scan(u, ByColor(color))
    requires forall l :: l in rw.seen ==> At(w, l) == At(u, l)
    ensures ByColorSets(u, color, newOwner) == Some(rw)
  {
    var targets := Targets(Scan(w, ByColor(color)).Keys);
    assert rw.seen.Keys == targets;
    forall l | l in targets
      ensures Ownable(u, l) && VersionAt(u, l) == VersionAt(w, l)
    {
      assert At(w, l) == At(u, l);
    }
    assert SeenAt(u, targets) == SeenAt(w, targets);
    assert Reowned(u, targets, newOwner) == Reowned(w, targets, newOwner);
  }

  lemma {:induction false} SimulatesAlike(op: Op, w: Ledger, u: Ledger, rw: Sets)
    requires Simulate(op, w) == Some(rw) && Fresh(u, rw) && Agree(w, u, rw)
    ensures Simulate(op, u) == Some(rw)
  {
    assert forall l :: l in rw.seen ==> Observed(rw, l);
    match op
    case CreateAsset(id, _, _, _, _) => assert AssetKey(id) in rw.seen;
    case DeleteAsset(id) => assert AssetKey(id) in rw.seen;
    case TransferAsset(id, _) => assert AssetKey(id) in rw.seen;
    case TransferAssetByColor(color, newOwner) =>
      assert rw.scans[ByColor(color)] == Scan(w, ByColor(color));
      ByColorAlike(w, u, color, newOwner, rw);
    case InitLedger => CreateAllAlike(w, u, Nothing(), INITIAL_ASSETS, rw);
  }

  lemma {:induction false} SimulationIsFresh(op: Op, w: Ledger)
    requires Simulate(op, w).Some?
    ensures Fresh(w, Simulate(op, w).value) && Simulate(op, w).value.policies == map[]
  {
    if op.InitLedger? {
      CreateAllSeen(w, Nothing(), INITIAL_ASSETS);
    }
  }

  lemma {:induction false} AcceptedIsAtomic(chain: Chain, tx: Tx<Op, Datum>)
    requires EndorsedAt(chain, tx) && Accepts(chain, tx)
    ensures Simulate(tx.op, Replay(chain)) == Some(tx.rw)
  {
    var w := WorldAt(chain, tx.height);
    assert chain[..|chain|] == chain;
    SimulationIsFresh(tx.op, w);
    FreshWorldsAgree(chain, tx.height, |chain|, tx.rw);
    SimulatesAlike(tx.op, w, Replay(chain), tx.rw);
  }

  lemma {:induction false} RunPrefix(chain: Chain, n: nat)
    requires Run(chain) && n <= |chain|
    ensures Run(chain[..n])
    ensures n < |chain| ==> Accepts(chain[..n], chain[n]) && EndorsedAt(chain[..n], chain[n])
  {
    PrefixCommitted(chain, n);
    forall j | 0 <= j <= n && j < |chain|
      ensures EndorsedAt(chain[..n], chain[j])
    {
      PrefixCommitted(chain, j);
      assert EndorsedAt(chain, chain[j]);
      PrefixWorld(chain, n, chain[j].height);
    }
  }

  // ---- The index agrees with the assets ----

  predicate HasColor(w: Ledger, id: string, color: string) {
    AssetAt(w, id).Ok? && AssetAt(w, id).value.color == color
  }

  /** An asset sits under its own id and is indexed; an index entry has its asset. */
  predicate Fits(w: Ledger, l: Loc, e: Entry<Datum>) {
    && e.policy == {} && l.space == Channel
    && match l.key
       case Plain(id) =>
         && e.value.Record? && e.value.asset.id == id && id != ""
         && ValidAttributes([INDEX, e.value.asset.color, id]) && IndexKey(e.value.asset.color, id) in w
       case Composite(index, parts) =>
         index == INDEX && |parts| == 2 && e.value.Marker? && HasColor(w, parts[1], parts[0])
  }

  ghost predicate Indexed(w: Ledger) {
    forall l :: l in w ==> Fits(w, l, w[l])
  }

  /** The agreement, both ways. */
  lemma {:induction false} IndexedBothWays(w: Ledger, color: string, id: string)
    requires Indexed(w)
    ensures IndexKey(color, id) in w <==> HasColor(w, id, color)
  {
    if IndexKey(color, id) in w {
      assert Fits(w, IndexKey(color, id), w[IndexKey(color, id)]);
      assert [color, id][0] == color && [color, id][1] == id;
    }
    if AssetKey(id) in w {
      assert Fits(w, AssetKey(id), w[AssetKey(id)]);
    }
  }

  /** `u` is `w` but for the two keys of an asset. */
  ghost predicate SameBut(w: Ledger, u: Ledger, color: string, id: string) {
    forall l :: l != AssetKey(id) && l != IndexKey(color, id) ==> At(u, l) == At(w, l)
  }

  lemma {:induction false} OtherIdsKept(w: Ledger, u: Ledger, color: string, id: string, l: Loc)
    requires Indexed(w) && SameBut(w, u, color, id)
    requires l in w && l != AssetKey(id) && l != IndexKey(color, id)
    requires AssetAt(w, id).Ok? ==> HasColor(w, id, color)
    ensures l in u && Fits(u, l, u[l])
  {
    assert At(u, l) == At(w, l) && Fits(w, l, w[l]);
    match l.key
    case Plain(other) =>
      var key := IndexKey(w[l].value.asset.color, other);
      assert key.key.attributes[1] == other;
      assert At(u, key) == At(w, key);
    case Composite(_, parts) =>
      assert parts == [parts[0], parts[1]];
      assert At(u, AssetKey(parts[1])) == At(w, AssetKey(parts[1]));
  }

  lemma {:induction false} AddKeeps(w: Ledger, u: Ledger, asset: Asset)
    requires Indexed(w) && SameBut(w, u, asset.color, asset.id) && AssetKey(asset.id) !in w
    requires asset.id != "" && ValidAttributes([INDEX, asset.color, asset.id])
    requires var l := AssetKey(asset.id); l in u && u[l].value == Record(asset) && u[l].policy == {}
    requires var l := IndexKey(asset.color, asset.id); l in u && u[l].value == Marker && u[l].policy == {}
    ensures Indexed(u)
  {
    forall l | l in u
      ensures Fits(u, l, u[l])
    {
      if l == IndexKey(asset.color, asset.id) {
        assert l.key.attributes[0] == asset.color && l.key.attributes[1] == asset.id;
      } else if l != AssetKey(asset.id) {
        assert At(u, l) == At(w, l);
        OtherIdsKept(w, u, asset.color, asset.id, l);
      }
    }
  }

  lemma {:induction false} RemoveKeeps(w: Ledger, u: Ledger, color: string, id: string)
    requires Indexed(w) && SameBut(w, u, color, id) && HasColor(w, id, color)
    requires AssetKey(id) !in u && IndexKey(color, id) !in u
    ensures Indexed(u)
  {
    forall l | l in u
      ensures Fits(u, l, u[l])
    {
      assert At(u, l) == At(w, l);
      OtherIdsKept(w, u, color, id, l);
    }
  }

  lemma {:induction false} CreateKeeps(w: Ledger, rw: Sets, version: nat, asset: Asset, next: Sets)
    requires Indexed(w) && Indexed(Apply(w, rw, version))
    requires CreateSets(w, rw, asset) == Ok(next)
    requires rw.policies == map[] && AssetKey(asset.id) !in rw.writes
    ensures Indexed(Apply(w, next, version))
  {
    var u, v := Apply(w, rw, version), Apply(w, next, version);
    var key, entry := AssetKey(asset.id), IndexKey(asset.color, asset.id);
    assert At(u, key) == After(w, rw, version, key);
    IndexedBothWays(w, asset.color, asset.id);
    assert At(v, key) == After(w, next, version, key) == Some(Entry(Record(asset), version, {}));
    assert At(v, entry) == After(w, next, version, entry) == Some(Entry(Marker, version, {}));
    forall l | l != key && l != entry
      ensures At(v, l) == At(u, l)
    {
      assert At(u, l) == After(w, rw, version, l) && At(v, l) == After(w, next, version, l);
    }
    AddKeeps(u, v, asset);
  }

  predicate AllDifferent(assets: seq<Asset>) {
    forall i, j :: 0 <= i < j < |assets| ==> assets[i].id != assets[j].id
  }

  lemma {:induction false} CreateAllKeeps(w: Ledger, rw: Sets, version: nat, assets: seq<Asset>, end: Sets)
    requires Indexed(w) && Indexed(Apply(w, rw, version)) && rw.policies == map[]
    requires AllDifferent(assets) && forall asset :: asset in assets ==> AssetKey(asset.id) !in rw.writes
    requires CreateAllSets(w, rw, assets) == Ok(end)
    ensures Indexed(Apply(w, end, version))
    decreases |assets|
  {
    if assets != [] {
      var next := CreateSets(w, rw, assets[0]).value;
      assert assets[0] in assets;
      CreateKeeps(w, rw, version, assets[0], next);
      forall i | 0 <= i < |assets[1..]|
        ensures AssetKey(assets[1..][i].id) !in next.writes
      {
        assert assets[1..][i] == assets[i + 1] && assets[i + 1] in assets;
      }
      CreateAllKeeps(w, next, version, assets[1..], end);
    }
  }

  lemma {:induction false} ApplyNothing(w: Ledger, version: nat)
    ensures Apply(w, Nothing(), version) == w
  {
    assert forall l :: At(Apply(w, Nothing(), version), l) == After(w, Nothing(), version, l) == At(w, l);
    assert forall l :: l in Apply(w, Nothing(), version) <==> l in w;
  }

  /** `u` is `w` with the assets in `ls` given a new owner. */
  ghost predicate OnlyReowned(w: Ledger, u: Ledger, ls: set<Loc>, newOwner: string) {
    forall l ::
      ValueAt(u, l) == if l in ls && Ownable(w, l) then Some(Record(w[l].value.asset.(owner := newOwner)))
                       else ValueAt(w, l)
  }

  lemma {:induction false} AppliesReowning(w: Ledger, rw: Sets, version: nat, ls: set<Loc>, newOwner: string)
    requires rw.writes == Reowned(w, ls, newOwner) && rw.policies == map[]
    ensures OnlyReowned(w, Apply(w, rw, version), ls, newOwner)
    ensures forall l :: !(l in ls && Ownable(w, l)) ==> At(Apply(w, rw, version), l) == At(w, l)
    ensures forall l :: l in w && l in Apply(w, rw, version) ==> Apply(w, rw, version)[l].policy == w[l].policy
  {
    var u := Apply(w, rw, version);
    forall l
      ensures At(u, l) == (if l in ls && Ownable(w, l)
                           then Some(Entry(Record(w[l].value.asset.(owner := newOwner)), version, w[l].policy))
                           else At(w, l))
    {
      assert At(u, l) == After(w, rw, version, l);
    }
  }

  lemma {:induction false} ReowningKeeps(w: Ledger, u: Ledger, ls: set<Loc>, newOwner: string)
    requires Indexed(w) && OnlyReowned(w, u, ls, newOwner)
    requires forall l :: l in w && l in u ==> u[l].policy == w[l].policy
    ensures Indexed(u)
  {
    forall l | l in u
      ensures Fits(u, l, u[l])
    {
      assert ValueAt(u, l).Some? && ValueAt(w, l).Some?;
      assert Fits(w, l, w[l]);
      match l.key
      case Plain(id) =>
        var key := IndexKey(w[l].value.asset.color, id);
        assert ValueAt(u, key) == ValueAt(w, key);
      case Composite(_, parts) =>
        assert ValueAt(u, AssetKey(parts[1])).Some?;
    }
  }

  lemma {:induction false} DeleteKeeps(w: Ledger, id: string, version: nat, rw: Sets)
    requires Indexed(w) && DeleteSets(w, id) == Ok(rw)
    ensures Indexed(Apply(w, rw, version))
  {
    var u, color := Apply(w, rw, version), AssetAt(w, id).value.color;
    assert Fits(w, AssetKey(id), w[AssetKey(id)]);
    forall l
      ensures At(u, l) == if l == AssetKey(id) || l == IndexKey(color, id) then None else At(w, l)
    {
      assert At(u, l) == After(w, rw, version, l);
    }
    RemoveKeeps(w, u, color, id);
  }

  lemma {:induction false} ReowningStepKeeps(w: Ledger, rw: Sets, version: nat, ls: set<Loc>, newOwner: string)
    requires Indexed(w) && rw.writes == Reowned(w, ls, newOwner) && rw.policies == map[]
    ensures Indexed(Apply(w, rw, version))
  {
    AppliesReowning(w, rw, version, ls, newOwner);
    ReowningKeeps(w, Apply(w, rw, version), ls, newOwner);
  }

  lemma {:induction false} TransferIsReowning(w: Ledger, id: string, newOwner: string, rw: Sets)
    requires TransferSets(w, id, newOwner) == Ok(rw)
    ensures rw.writes == Reowned(w, {AssetKey(id)}, newOwner) && rw.policies == map[]
  {
  }

  lemma {:induction false} InitKeeps(w: Ledger, version: nat, rw: Sets)
    requires Indexed(w) && CreateAllSets(w, Nothing(), INITIAL_ASSETS) == Ok(rw)
    ensures Indexed(Apply(w, rw, version))
  {
    ApplyNothing(w, version);
    InitialAssetsDiffer();
    CreateAllKeeps(w, Nothing(), version, INITIAL_ASSETS, rw);
  }

  lemma {:induction false} InitialAssetsDiffer()
    ensures AllDifferent(INITIAL_ASSETS)
  {
    var ids := ["asset1", "asset2", "asset3", "asset4", "asset5", "asset6"];
    forall i | 0 <= i < |INITIAL_ASSETS|
      ensures |INITIAL_ASSETS[i].id| == 6 && INITIAL_ASSETS[i].id[5] as int == '1' as int + i
    {
      assert INITIAL_ASSETS[i].id == ids[i];
    }
  }

  lemma {:induction false} StepKeeps(w: Ledger, op: Op, version: nat, rw: Sets)
    requires Indexed(w) && Simulate(op, w) == Some(rw)
    ensures Indexed(Apply(w, rw, version))
  {
    match op
    case CreateAsset(id, color, size, owner, value) =>
      ApplyNothing(w, version);
      CreateKeeps(w, Nothing(), version, Asset("asset", id, color, size, owner, value), rw);
    case InitLedger =>
      InitKeeps(w, version, rw);
    case DeleteAsset(id) =>
      DeleteKeeps(w, id, version, rw);
    case TransferAsset(id, newOwner) =>
      TransferIsReowning(w, id, newOwner, rw);
      ReowningStepKeeps(w, rw, version, {AssetKey(id)}, newOwner);
    case TransferAssetByColor(color, newOwner) =>
      ReowningStepKeeps(w, rw, version, Targets(Scan(w, ByColor(color)).Keys), newOwner);
  }

  /** Over every run the index agrees with the assets. */
  lemma {:induction false} HistoryIsIndexed(chain: Chain, n: nat)
    requires Run(chain) && n <= |chain|
    ensures Indexed(WorldAt(chain, n))
  {
    if n > 0 {
      HistoryIsIndexed(chain, n - 1);
      RunPrefix(chain, n - 1);
      AcceptedIsAtomic(chain[..n - 1], chain[n - 1]);
      Step(chain, n - 1);
      StepKeeps(WorldAt(chain, n - 1), chain[n - 1].op, n - 1, chain[n - 1].rw);
    }
  }

  // ---- Transfers by colour ----

  predicate IsColored(w: Ledger, l: Loc, color: string) {
    l.space == Channel && l.key.Plain? && HasColor(w, l.key.name, color)
  }

  /** The rows of a colour name exactly the assets of that colour. */
  lemma {:induction false} TargetsAreTheColor(w: Ledger, color: string, l: Loc)
    requires Indexed(w)
    ensures l in Targets(Scan(w, ByColor(color)).Keys) <==> IsColored(w, l, color)
    ensures l in Targets(Scan(w, ByColor(color)).Keys) ==> Ownable(w, l)
  {
    var rows := Scan(w, ByColor(color)).Keys;
    if l in Targets(rows) {
      var row :| row in rows && Names(row) && l == AssetKey(row.key.attributes[1]);
      assert Fits(w, row, w[row]);
      assert row.key.attributes[0] == [color][0];
      assert Fits(w, l, w[l]);
    }
    if IsColored(w, l, color) {
      var row := IndexKey(color, l.key.name);
      IndexedBothWays(w, color, l.key.name);
      assert [color] <= row.key.attributes;
      assert row in rows && Names(row) && row.key.attributes[1] == l.key.name;
    }
  }

  /** A transfer by colour fails for a colour that cannot be a key attribute, and for no
      other reason. */
  lemma {:induction false} ByColorNeverMissesALookup(chain: Chain, n: nat, color: string, newOwner: string)
    requires Run(chain) && n <= |chain|
    ensures ByColorSets(WorldAt(chain, n), color, newOwner).Some? <==> ValidAttributes([INDEX, color])
  {
    HistoryIsIndexed(chain, n);
    var w := WorldAt(chain, n);
    forall l { TargetsAreTheColor(w, color, l); }
  }

  function Repainted(r: Result<Asset, Fault>, color: string, newOwner: string): Result<Asset, Fault> {
    if r.Ok? && r.value.color == color then Ok(r.value.(owner := newOwner)) else r
  }

  lemma {:induction false} ByColorEffect(w: Ledger, color: string, newOwner: string, rw: Sets, version: nat)
    requires Indexed(w) && ByColorSets(w, color, newOwner) == Some(rw)
    ensures forall id :: AssetAt(Apply(w, rw, version), id) == Repainted(AssetAt(w, id), color, newOwner)
    ensures SameButColor(w, Apply(w, rw, version), color)
  {
    var targets := Targets(Scan(w, ByColor(color)).Keys);
    var u := Apply(w, rw, version);
    AppliesReowning(w, rw, version, targets, newOwner);
    forall l { TargetsAreTheColor(w, color, l); }
    forall id
      ensures AssetAt(u, id) == Repainted(AssetAt(w, id), color, newOwner)
    {
      var l := AssetKey(id);
      assert ValueAt(u, l)
          == if l in targets then Some(Record(w[l].value.asset.(owner := newOwner))) else ValueAt(w, l);
    }
  }

  /** A committed transfer by colour re-owns every asset that has the colour when it
      commits, whenever it was endorsed, and changes nothing else. */
  lemma {:induction false} ByColorTakesExactlyTheColor(chain: Chain, n: nat, color: string, newOwner: string)
    requires Run(chain) && n < |chain| && chain[n].op == TransferAssetByColor(color, newOwner)
    ensures forall id ::
      AssetAt(WorldAt(chain, n + 1), id) == Repainted(AssetAt(WorldAt(chain, n), id), color, newOwner)
    ensures SameButColor(WorldAt(chain, n), WorldAt(chain, n + 1), color)
  {
    HistoryIsIndexed(chain, n);
    RunPrefix(chain, n);
    AcceptedIsAtomic(chain[..n], chain[n]);
    Step(chain, n);
    ByColorEffect(WorldAt(chain, n), color, newOwner, chain[n].rw, n);
  }

  // ---- Concurrency of transfers by colour ----

  lemma {:induction false} SeenAreTheColor(w: Ledger, color: string, newOwner: string, rw: Sets)
    requires Indexed(w) && ByColorSets(w, color, newOwner) == Some(rw)
    ensures forall l :: l in rw.seen <==> IsColored(w, l, color)
    ensures rw.writes.Keys == rw.seen.Keys && rw.scans == map[ByColor(color) := Scan(w, ByColor(color))]
    ensures rw.policies == map[] && forall l :: l in rw.seen ==> rw.seen[l] == VersionAt(w, l)
  {
    var targets := Targets(Scan(w, ByColor(color)).Keys);
    forall l
      ensures l in targets <==> IsColored(w, l, color)
      ensures l in targets ==> Ownable(w, l)
    {
      TargetsAreTheColor(w, color, l);
    }
    assert rw.seen.Keys == targets == rw.writes.Keys;
  }

  /** `u` is `w` but for the assets of a colour. */
  ghost predicate SameButColor(w: Ledger, u: Ledger, color: string) {
    forall l :: !IsColored(w, l, color) ==> At(u, l) == At(w, l)
  }

  lemma {:induction false} SameScan(w: Ledger, u: Ledger, color: string, other: string)
    requires SameButColor(w, u, other)
    ensures Scan(u, ByColor(color)) == Scan(w, ByColor(color))
  {
    forall l | Matches(ByColor(color), l)
      ensures At(u, l) == At(w, l)
    {
    }
  }

  lemma {:induction false} StillFresh(w: Ledger, u: Ledger, color: string, other: string, newOwner: string, rw: Sets)
    requires Indexed(w) && color != other && ByColorSets(w, color, newOwner) == Some(rw)
    requires SameButColor(w, u, other)
    ensures Fresh(u, rw)
    ensures forall l :: l in rw.writes ==> At(u, l) == At(w, l)
  {
    SameScan(w, u, color, other);
    SeenAreTheColor(w, color, newOwner, rw);
    forall l | l in rw.seen
      ensures At(u, l) == At(w, l)
    {
      assert !IsColored(w, l, other);
    }
  }

  /** An acceptable transfer by colour. */
  predicate IsByColor(chain: Chain, tx: Tx<Op, Datum>, color: string, newOwner: string) {
    EndorsedAt(chain, tx) && Accepts(chain, tx) && tx.op == TransferAssetByColor(color, newOwner)
  }

  lemma {:induction false} ByColorAtCommit(chain: Chain, tx: Tx<Op, Datum>, color: string, newOwner: string)
    requires Run(chain) && IsByColor(chain, tx, color, newOwner)
    ensures Indexed(Replay(chain)) && ByColorSets(Replay(chain), color, newOwner) == Some(tx.rw)
    ensures Replay(chain + [tx]) == Apply(Replay(chain), tx.rw, |chain|)
  {
    assert chain[..|chain|] == chain && (chain + [tx])[..|chain|] == chain;
    HistoryIsIndexed(chain, |chain|);
    AcceptedIsAtomic(chain, tx);
  }

  lemma {:induction false} StillAccepted(chain: Chain, first: Tx<Op, Datum>, second: Tx<Op, Datum>,
                      color: string, other: string, newOwner: string, otherOwner: string)
    requires Run(chain) && first.id != second.id && color != other
    requires IsByColor(chain, first, color, newOwner) && IsByColor(chain, second, other, otherOwner)
    ensures Accepts(chain + [first], second)
  {
    ByColorAtCommit(chain, first, color, newOwner);
    ByColorAtCommit(chain, second, other, otherOwner);
    StillAcceptable(Replay(chain), Replay(chain + [first]), |chain|, color, other, newOwner, otherOwner,
                    first.rw, second.rw, second.endorsers);
    UsedGrows(chain, first, second.id);
  }

  lemma {:induction false} StillAcceptable(w: Ledger, u: Ledger, version: nat, color: string, other: string,
                                           newOwner: string, otherOwner: string, first: Sets, second: Sets,
                                           endorsers: set<Org>)
    requires Indexed(w) && color != other && u == Apply(w, first, version)
    requires ByColorSets(w, color, newOwner) == Some(first) && ByColorSets(w, other, otherOwner) == Some(second)
    requires Endorsed(w, second, endorsers)
    ensures Fresh(u, second) && Endorsed(u, second, endorsers)
  {
    ByColorEffect(w, color, newOwner, first, version);
    StillFresh(w, u, other, color, otherOwner, second);
    SeenAreTheColor(w, other, otherOwner, second);
    forall l | l in second.writes.Keys + second.policies.Keys
      ensures At(u, l) == At(w, l)
    {
    }
  }

  lemma {:induction false} ValueAfterTwo(chain: Chain, first: Tx<Op, Datum>, second: Tx<Op, Datum>, l: Loc)
    ensures ValueAt(Replay(chain + [first, second]), l) ==
            if l in second.rw.writes then second.rw.writes[l] else
            if l in first.rw.writes then first.rw.writes[l] else ValueAt(Replay(chain), l)
  {
    var grown, both := chain + [first], chain + [first, second];
    assert grown[..|chain|] == chain && both[..|grown|] == grown;
    assert At(Replay(grown), l) == After(Replay(chain), first.rw, |chain|, l);
    assert At(Replay(both), l) == After(Replay(grown), second.rw, |grown|, l);
  }

  lemma {:induction false} Apart(w: Ledger, color: string, other: string, newOwner: string, otherOwner: string,
                                 rw: Sets, rw': Sets)
    requires Indexed(w) && color != other
    requires ByColorSets(w, color, newOwner) == Some(rw) && ByColorSets(w, other, otherOwner) == Some(rw')
    ensures rw.writes.Keys !! rw'.writes.Keys
  {
    SeenAreTheColor(w, color, newOwner, rw);
    SeenAreTheColor(w, other, otherOwner, rw');
    forall l | l in rw.seen
      ensures l !in rw'.seen
    {
      assert !IsColored(w, l, other);
    }
  }

  lemma {:induction false} EitherOrder(chain: Chain, first: Tx<Op, Datum>, second: Tx<Op, Datum>)
    requires first.rw.writes.Keys !! second.rw.writes.Keys
    ensures forall l :: ValueAt(Replay(chain + [first, second]), l) == ValueAt(Replay(chain + [second, first]), l)
  {
    forall l
      ensures ValueAt(Replay(chain + [first, second]), l) == ValueAt(Replay(chain + [second, first]), l)
    {
      ValueAfterTwo(chain, first, second, l);
      ValueAfterTwo(chain, second, first, l);
    }
  }

  /** Transfers of different colours, endorsed at whatever heights, never invalidate each
      other, and their order does not show in any value. */
  lemma {:induction false} DifferentColorsCommute(chain: Chain, first: Tx<Op, Datum>, second: Tx<Op, Datum>,
                               color: string, other: string, newOwner: string, otherOwner: string)
    requires Run(chain) && first.id != second.id && color != other
    requires IsByColor(chain, first, color, newOwner) && IsByColor(chain, second, other, otherOwner)
    ensures Order(chain, [first, second]) == chain + [first, second]
    ensures Order(chain, [second, first]) == chain + [second, first]
    ensures forall l :: ValueAt(Replay(chain + [first, second]), l) == ValueAt(Replay(chain + [second, first]), l)
  {
    StillAccepted(chain, first, second, color, other, newOwner, otherOwner);
    StillAccepted(chain, second, first, other, color, otherOwner, newOwner);
    OrderOfTwo(chain, first, second);
    OrderOfTwo(chain, second, first);
    ByColorAtCommit(chain, first, color, newOwner);
    ByColorAtCommit(chain, second, other, otherOwner);
    Apart(Replay(chain), color, other, newOwner, otherOwner, first.rw, second.rw);
    EitherOrder(chain, first, second);
  }

  lemma {:induction false} OrderOfTwo(chain: Chain, first: Tx<Op, Datum>, second: Tx<Op, Datum>)
    requires Accepts(chain, first) && Accepts(chain + [first], second)
    ensures Order(chain, [first, second]) == chain + [first, second]
  {
    assert [first, second][1..] == [second] && [second][1..] == [];
    assert Order(chain + [first], [second]) == Order(chain + [first] + [second], []) == chain + [first] + [second];
    assert chain + [first] + [second] == chain + [first, second];
  }

  /** Two transfers of one colour that has an asset: the second, endorsed before the first
      committed, is rejected. */
  lemma {:induction false} SameColorConflicts(chain: Chain, first: Tx<Op, Datum>, second: Tx<Op, Datum>,
                           color: string, id: string, newOwner: string, otherOwner: string)
    requires Run(chain) && IsByColor(chain, first, color, newOwner) && HasColor(Replay(chain), id, color)
    requires EndorsedAt(chain, second) && second.op == TransferAssetByColor(color, otherOwner)
    ensures !Accepts(chain + [first], second)
  {
    var l, grown := AssetKey(id), chain + [first];
    ByColorAtCommit(chain, first, color, newOwner);
    SeenAreTheColor(Replay(chain), color, newOwner, first.rw);
    assert IsColored(Replay(chain), l, color);
    assert At(Replay(grown), l) == After(Replay(chain), first.rw, |chain|, l);
    if Accepts(grown, second) {
      assert Replay(grown)[l].version == |chain|;
      ByColorEffect(Replay(chain), color, newOwner, first.rw, |chain|);
      StillEndorsed(chain, first, second);
      AcceptedIsAtomic(grown, second);
      StepKeeps(Replay(chain), first.op, |chain|, first.rw);
      SeenAreTheColor(Replay(grown), color, otherOwner, second.rw);
      assert IsColored(Replay(grown), l, color);
      NotFromTheFuture(chain, second, l);
    }
  }

  lemma {:induction false} StillEndorsed(chain: Chain, tx: Tx<Op, Datum>, later: Tx<Op, Datum>)
    requires EndorsedAt(chain, later)
    ensures EndorsedAt(chain + [tx], later)
  {
    PrefixWorld(chain + [tx], |chain|, later.height);
    assert (chain + [tx])[..|chain|] == chain;
  }

  lemma {:induction false} NotFromTheFuture(chain: Chain, tx: Tx<Op, Datum>, l: Loc)
    requires EndorsedAt(chain, tx) && l in tx.rw.seen
    ensures tx.rw.seen[l] != Some(|chain|)
  {
    SimulationIsFresh(tx.op, WorldAt(chain, tx.height));
    if l in WorldAt(chain, tx.height) {
      EntryOrigin(chain, tx.height, l);
    }
  }
}
