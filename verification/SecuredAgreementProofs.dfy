/** An asset changes hands only by a sale both sides agreed to, over every history. */
module SecuredAgreementProofs {
  import opened Wrappers
  import opened Fabric
  import opened CompositeKeys
  import opened SecuredAgreement

  type SaleTx = Tx<Call, Datum>

  function Owner(w: Ledger, id: string): Option<Org> {
    match AssetAt(w, id)
    case Ok(asset) => Some(asset.ownerOrg)
    case Err(_) => None
  }

  // ---- Accepted calls are atomic ----

  lemma {:induction false} RunPrefix(d: Hashing, chain: Chain, n: nat)
    requires Run(d, chain) && n <= |chain|
    ensures Run(d, chain[..n])
    ensures n < |chain| ==> Accepts(chain[..n], chain[n]) && EndorsedAt(d, chain[..n], chain[n])
  {
    PrefixCommitted(chain, n);
    forall j | 0 <= j <= n && j < |chain|
      ensures EndorsedAt(d, chain[..n], chain[j])
    {
      PrefixCommitted(chain, j);
      assert EndorsedAt(d, chain, chain[j]);
      PrefixWorld(chain, n, chain[j].height);
    }
  }

  lemma {:induction false} SameAt(w: Ledger, u: Ledger, rw: Sets, l: Loc)
    requires Agree(w, u, rw) && l in rw.seen
    ensures At(w, l) == At(u, l)
  {
    assert Observed(rw, l);
  }

  lemma {:induction false} TransferSimulatesAlike(d: Hashing, txId: string, w: Ledger, u: Ledger, client: Org,
                                                  id: string, buyer: Org, price: Option<string>)
    requires TransferSets(d, w, txId, client, id, buyer, price).Ok?
    requires Agree(w, u, TransferSets(d, w, txId, client, id, buyer, price).value)
    ensures TransferSets(d, u, txId, client, id, buyer, price) == TransferSets(d, w, txId, client, id, buyer, price)
  {
    var rw := TransferSets(d, w, txId, client, id, buyer, price).value;
    SameAt(w, u, rw, AssetKey(id));
    var asset := AssetAt(w, id).value;
    SameAt(w, u, rw, PropertiesKey(client, asset.id));
    SameAt(w, u, rw, PropertiesKey(buyer, asset.id));
    SameAt(w, u, rw, AskKey(client, asset.id));
    SameAt(w, u, rw, BidKey(buyer, asset.id));
    assert Observations(w, asset.id, client, buyer) == Observations(u, asset.id, client, buyer);
  }

  lemma {:induction false} SimulatesAlike(d: Hashing, call: Call, peer: Org, txId: string, w: Ledger, u: Ledger)
    requires Simulate(d, call, peer, txId, w).Ok? && Agree(w, u, Simulate(d, call, peer, txId, w).value)
    ensures Simulate(d, call, peer, txId, u) == Simulate(d, call, peer, txId, w)
  {
    var rw := Simulate(d, call, peer, txId, w).value;
    match call.op
    case CreateAsset(_, _) =>
    case ChangePublicDescription(id, _) => SameAt(w, u, rw, AssetKey(id));
    case AgreeToSell(id, _) => SameAt(w, u, rw, AssetKey(id));
    case AgreeToBuy(_, _, _) =>
    case TransferAsset(id, buyer, price) => TransferSimulatesAlike(d, txId, w, u, call.client, id, buyer, price);
  }

  lemma {:induction false} SimulationIsFresh(d: Hashing, call: Call, peer: Org, txId: string, w: Ledger)
    requires Simulate(d, call, peer, txId, w).Ok?
    ensures Fresh(w, Simulate(d, call, peer, txId, w).value)
  {
    match call.op
    case CreateAsset(_, _) =>
    case ChangePublicDescription(_, _) =>
    case AgreeToSell(_, _) =>
    case AgreeToBuy(_, _, _) =>
    case TransferAsset(_, _, _) =>
  }

  /** Simulating `tx` at the world it is applied to, on any of its endorsers' peers. */
  ghost predicate Atomic(d: Hashing, w: Ledger, tx: SaleTx) {
    && tx.endorsers != {}
    && Endorsed(w, tx.rw, tx.endorsers)
    && forall peer :: peer in tx.endorsers ==> Simulate(d, tx.op, peer, tx.id, w) == Ok(tx.rw)
  }

  lemma {:induction false} AcceptedIsAtomic(d: Hashing, chain: Chain, tx: SaleTx)
    requires EndorsedAt(d, chain, tx) && Accepts(chain, tx)
    ensures Atomic(d, Replay(chain), tx)
  {
    var w := WorldAt(chain, tx.height);
    assert chain[..|chain|] == chain;
    forall peer | peer in tx.endorsers
      ensures Simulate(d, tx.op, peer, tx.id, Replay(chain)) == Ok(tx.rw)
    {
      SimulationIsFresh(d, tx.op, peer, tx.id, w);
      FreshWorldsAgree(chain, tx.height, |chain|, tx.rw);
      SimulatesAlike(d, tx.op, peer, tx.id, w, Replay(chain));
    }
  }

  // ---- The invariant ----

  predicate SoundEntry(w: Ledger, l: Loc) {
    l in w &&
    match l.space
    case Channel =>
      && l.key.Plain? && w[l].value.Public?
      && w[l].value.asset.id == l.key.name
      && w[l].policy == {w[l].value.asset.ownerOrg}
    case Implicit(org) =>
      && w[l].policy == {} && w[l].value.Private?
      && (l.key.Composite? && l.key.index == FOR_SALE ==>
            |l.key.attributes| == 1 && Owner(w, l.key.attributes[0]) == Some(org))
  }

  /** Every asset carries its key as id and exactly its owner as policy, and an ask stands
      only in the collection of the current owner. */
  ghost predicate Sound(w: Ledger) {
    forall l :: l in w ==> SoundEntry(w, l)
  }

  /** The asset a call is about, where the call names one through its properties. */
  function Subject(d: Hashing, call: Call): string {
    match call.op
    case CreateAsset(properties, _) => if properties.None? then "" else d.hash(properties.value)
    case ChangePublicDescription(id, _) => id
    case AgreeToSell(id, _) => id
    case AgreeToBuy(id, _, _) => id
    case TransferAsset(id, _, _) => id
  }

  function NextOwner(d: Hashing, call: Call, w: Ledger, id: string): Option<Org> {
    if Subject(d, call) != id then Owner(w, id)
    else
      match call.op
      case CreateAsset(_, _) => Some(call.client)
      case TransferAsset(_, buyer, _) => Some(buyer)
      case _ => Owner(w, id)
  }

  /** A second CreateAsset with the same properties never takes the asset from another
      organization: only the owner's own peers can endorse a write of its key. */
  lemma {:induction false} RecreatedByOwnerOnly(d: Hashing, w: Ledger, tx: SaleTx)
    requires Sound(w) && Atomic(d, w, tx) && tx.op.op.CreateAsset?
    ensures Owner(w, Subject(d, tx.op)) in {None, Some(tx.op.client)}
  {
    var id := Subject(d, tx.op);
    var peer :| peer in tx.endorsers;
    assert Simulate(d, tx.op, peer, tx.id, w) == Ok(tx.rw);
    assert AssetKey(id) in tx.rw.writes;
    if AssetKey(id) in w {
      assert SoundEntry(w, AssetKey(id));
      var owner := w[AssetKey(id)].value.asset.ownerOrg;
      assert owner in tx.endorsers;
      assert Simulate(d, tx.op, owner, tx.id, w) == Ok(tx.rw);
    }
  }

  /** The properties, ask and bid entries a call may write. */
  lemma {:induction false} Writes(d: Hashing, call: Call, peer: Org, txId: string, w: Ledger, l: Loc)
    requires Sound(w) && Simulate(d, call, peer, txId, w).Ok?
    ensures var rw := Simulate(d, call, peer, txId, w).value;
            && (l in rw.policies ==> l in rw.writes && l == AssetKey(Subject(d, call)))
            && (l in rw.writes && l.space == Channel ==> l == AssetKey(Subject(d, call)))
            && (l in rw.writes && rw.writes[l].Some? && l.space.Implicit? ==>
                  && rw.writes[l].value.Private?
                  && (l.key.Composite? && l.key.index == FOR_SALE ==>
                        call.op.AgreeToSell? && l == AskKey(call.client, call.op.id)))
  {
    AssetIdIsKey(w, Subject(d, call));
    match call.op
    case CreateAsset(_, _) =>
    case ChangePublicDescription(_, _) =>
    case AgreeToSell(_, _) =>
    case AgreeToBuy(_, _, _) =>
    case TransferAsset(_, _, _) =>
  }

  lemma {:induction false} AssetIdIsKey(w: Ledger, id: string)
    requires Sound(w)
    ensures AssetAt(w, id).Ok? <==> AssetKey(id) in w
    ensures AssetAt(w, id).Ok? ==> AssetAt(w, id).value.id == id
    ensures AssetAt(w, id).Ok? ==> w[AssetKey(id)].policy == {AssetAt(w, id).value.ownerOrg}
  {
    if AssetKey(id) in w {
      assert SoundEntry(w, AssetKey(id));
    }
  }

  /** What a call writes to the key of an asset, if anything. */
  lemma {:induction false} AssetWrite(d: Hashing, call: Call, peer: Org, txId: string, w: Ledger, id: string)
    requires Sound(w) && Simulate(d, call, peer, txId, w).Ok?
    ensures var rw, l := Simulate(d, call, peer, txId, w).value, AssetKey(id);
            if l in rw.writes then
              && rw.writes[l].Some? && rw.writes[l].value.Public?
              && rw.writes[l].value.asset.id == id
              && NextOwner(d, call, w, id) == Some(rw.writes[l].value.asset.ownerOrg)
              && (l in rw.policies ==> rw.policies[l] == {rw.writes[l].value.asset.ownerOrg})
              && (l !in rw.policies ==> Owner(w, id) == Some(rw.writes[l].value.asset.ownerOrg))
            else l !in rw.policies && NextOwner(d, call, w, id) == Owner(w, id)
  {
    AssetIdIsKey(w, Subject(d, call));
    match call.op
    case CreateAsset(_, _) =>
    case ChangePublicDescription(_, _) =>
    case AgreeToSell(_, _) =>
    case AgreeToBuy(_, _, _) =>
    case TransferAsset(_, _, _) =>
  }

  /** The public side of a step: who owns each asset, and that its entry stays in order. */
  lemma {:induction false} AssetStep(d: Hashing, w: Ledger, tx: SaleTx, version: nat, id: string)
    requires Sound(w) && Atomic(d, w, tx)
    ensures var u := Apply(w, tx.rw, version);
            && Owner(u, id) == NextOwner(d, tx.op, w, id)
            && (AssetKey(id) in u ==> SoundEntry(u, AssetKey(id)))
  {
    var u, l := Apply(w, tx.rw, version), AssetKey(id);
    var peer :| peer in tx.endorsers;
    assert At(u, l) == After(w, tx.rw, version, l);
    AssetWrite(d, tx.op, peer, tx.id, w, id);
    AssetIdIsKey(w, id);
  }

  lemma {:induction false} AskStep(d: Hashing, w: Ledger, tx: SaleTx, version: nat, org: Org, id: string)
    requires Sound(w) && Atomic(d, w, tx)
    ensures var u := Apply(w, tx.rw, version);
            AskKey(org, id) in u ==> Owner(u, id) == Some(org)
  {
    var u, l := Apply(w, tx.rw, version), AskKey(org, id);
    var peer :| peer in tx.endorsers;
    assert At(u, l) == After(w, tx.rw, version, l);
    AssetStep(d, w, tx, version, id);
    Writes(d, tx.op, peer, tx.id, w, l);
    if l in u && l !in tx.rw.writes {
      assert SoundEntry(w, l);
      if tx.op.op.CreateAsset? && Subject(d, tx.op) == id {
        RecreatedByOwnerOnly(d, w, tx);
      } else if tx.op.op.TransferAsset? && Subject(d, tx.op) == id {
        TransferClearsAsk(d, w, tx, org);
      }
    } else if l in u {
      assert Simulate(d, tx.op, peer, tx.id, w) == Ok(tx.rw);
    }
  }

  lemma {:induction false} TransferClearsAsk(d: Hashing, w: Ledger, tx: SaleTx, org: Org)
    requires Sound(w) && Atomic(d, w, tx) && tx.op.op.TransferAsset?
    ensures Owner(w, tx.op.op.id) == Some(tx.op.client)
    ensures var l := AskKey(tx.op.client, tx.op.op.id); l in tx.rw.writes && tx.rw.writes[l] == None
    ensures var l := BidKey(tx.op.op.buyer, tx.op.op.id); l in tx.rw.writes && tx.rw.writes[l] == None
  {
    var peer :| peer in tx.endorsers;
    assert Simulate(d, tx.op, peer, tx.id, w) == Ok(tx.rw);
    AssetIdIsKey(w, tx.op.op.id);
  }

  /** Every accepted call keeps the invariant. */
  lemma {:induction false} StaysSound(d: Hashing, w: Ledger, tx: SaleTx, version: nat)
    requires Sound(w) && Atomic(d, w, tx)
    ensures Sound(Apply(w, tx.rw, version))
  {
    var u := Apply(w, tx.rw, version);
    var peer :| peer in tx.endorsers;
    forall l | l in u
      ensures SoundEntry(u, l)
    {
      assert At(u, l) == After(w, tx.rw, version, l);
      Writes(d, tx.op, peer, tx.id, w, l);
      if l in w {
        assert SoundEntry(w, l);
      }
      match l.space
      case Channel =>
        assert l == AssetKey(l.key.name);
        AssetStep(d, w, tx, version, l.key.name);
      case Implicit(org) =>
        if l.key.Composite? && l.key.index == FOR_SALE {
          assert l.key.attributes == [l.key.attributes[0]];
          AskStep(d, w, tx, version, org, l.key.attributes[0]);
        }
    }
  }

  lemma {:induction false} HistoryIsSound(d: Hashing, chain: Chain)
    requires Run(d, chain)
    ensures Sound(Replay(chain))
  {
    if chain != [] {
      var n := |chain| - 1;
      RunPrefix(d, chain, n);
      HistoryIsSound(d, chain[..n]);
      AcceptedIsAtomic(d, chain[..n], chain[n]);
      StaysSound(d, Replay(chain[..n]), chain[n], n);
    }
  }

  /** What an organization is told it has for sale, it owns: over every history the rows of
      its sale agreements are its asks, one for each of its assets that has one. */
  lemma {:induction false} SaleAgreementsAreItsOwn(d: Hashing, chain: Chain, org: Org, l: Loc)
    requires Run(d, chain)
    ensures l in Scan(Replay(chain), AgreementsOf(org, FOR_SALE)) <==>
            l in Replay(chain) && exists id :: l == AskKey(org, id) && Owner(Replay(chain), id) == Some(org)
  {
    HistoryIsSound(d, chain);
    var w := Replay(chain);
    if l in Scan(w, AgreementsOf(org, FOR_SALE)) {
      assert SoundEntry(w, l);
      var id := l.key.attributes[0];
      assert l.key.attributes == [id];
      assert l == AskKey(org, id) && Owner(w, id) == Some(org);
    }
  }

  /** Every transaction of a history, at the world it was applied to. */
  lemma {:induction false} AtStep(d: Hashing, chain: Chain, j: nat)
    requires Run(d, chain) && j <= |chain|
    ensures Sound(WorldAt(chain, j))
    ensures j < |chain| ==> Atomic(d, WorldAt(chain, j), chain[j])
    ensures j < |chain| ==> WorldAt(chain, j + 1) == Apply(WorldAt(chain, j), chain[j].rw, j)
  {
    RunPrefix(d, chain, j);
    HistoryIsSound(d, chain[..j]);
    if j < |chain| {
      AcceptedIsAtomic(d, chain[..j], chain[j]);
      Step(chain, j);
    }
  }

  // ---- Sale safety ----

  function BytesAt(w: Ledger, l: Loc): Option<string> {
    if l in w && w[l].value.Private? then Some(w[l].value.bytes) else None
  }

  lemma {:induction false} AskWriter(d: Hashing, call: Call, peer: Org, txId: string, w: Ledger, org: Org, id: string)
    requires Sound(w) && Simulate(d, call, peer, txId, w).Ok?
    ensures var rw, l := Simulate(d, call, peer, txId, w).value, AskKey(org, id);
            l !in rw.policies &&
            (l in rw.writes && rw.writes[l].Some? ==>
               rw.writes[l].value.Private? && call == Call(org, AgreeToSell(id, Some(rw.writes[l].value.bytes))))
  {
    AssetIdIsKey(w, Subject(d, call));
    match call.op
    case CreateAsset(_, _) =>
    case ChangePublicDescription(_, _) =>
    case AgreeToSell(_, _) =>
    case AgreeToBuy(_, _, _) =>
    case TransferAsset(_, _, _) =>
  }

  lemma {:induction false} BidWriter(d: Hashing, call: Call, peer: Org, txId: string, w: Ledger, org: Org, id: string)
    requires Sound(w) && Simulate(d, call, peer, txId, w).Ok?
    ensures var rw, l := Simulate(d, call, peer, txId, w).value, BidKey(org, id);
            l !in rw.policies &&
            (l in rw.writes && rw.writes[l].Some? ==>
               && rw.writes[l].value.Private? && call.op.AgreeToBuy?
               && call == Call(org, AgreeToBuy(id, call.op.properties, Some(rw.writes[l].value.bytes))))
  {
    AssetIdIsKey(w, Subject(d, call));
    match call.op
    case CreateAsset(_, _) =>
    case ChangePublicDescription(_, _) =>
    case AgreeToSell(_, _) =>
    case AgreeToBuy(_, _, _) =>
    case TransferAsset(_, _, _) =>
  }

  /** A standing ask was recorded by its organization, which has owned the asset since. */
  lemma {:induction false} AskOrigin(d: Hashing, chain: Chain, n: nat, org: Org, id: string)
    requires Run(d, chain) && n <= |chain| && AskKey(org, id) in WorldAt(chain, n)
    ensures var l := AskKey(org, id);
            var a := WorldAt(chain, n)[l].version;
            && a < n && BytesAt(WorldAt(chain, n), l).Some?
            && chain[a].op == Call(org, AgreeToSell(id, BytesAt(WorldAt(chain, n), l)))
            && (forall m :: a < m <= n ==> l in WorldAt(chain, m))
            && (forall m :: a <= m <= n ==> Owner(WorldAt(chain, m), id) == Some(org))
  {
    var l := AskKey(org, id);
    EntryOrigin(chain, n, l);
    var a := WorldAt(chain, n)[l].version;
    AtStep(d, chain, a);
    var peer :| peer in chain[a].endorsers;
    AskWriter(d, chain[a].op, peer, chain[a].id, WorldAt(chain, a), org, id);
    assert Simulate(d, chain[a].op, peer, chain[a].id, WorldAt(chain, a)) == Ok(chain[a].rw);
    forall m | a <= m <= n
      ensures Owner(WorldAt(chain, m), id) == Some(org)
      ensures a < m ==> l in WorldAt(chain, m)
    {
      AtStep(d, chain, m);
      if a < m {
        assert At(WorldAt(chain, m), l) == At(WorldAt(chain, n), l);
        assert SoundEntry(WorldAt(chain, m), l);
      }
    }
  }

  /** A standing bid was recorded by its organization and has not been used since. */
  lemma {:induction false} BidOrigin(d: Hashing, chain: Chain, n: nat, org: Org, id: string)
    requires Run(d, chain) && n <= |chain| && BidKey(org, id) in WorldAt(chain, n)
    ensures var l := BidKey(org, id);
            var b := WorldAt(chain, n)[l].version;
            && b < n && BytesAt(WorldAt(chain, n), l).Some? && chain[b].op.op.AgreeToBuy?
            && chain[b].op == Call(org, AgreeToBuy(id, chain[b].op.op.properties, BytesAt(WorldAt(chain, n), l)))
            && (forall m :: b < m <= n ==> l in WorldAt(chain, m))
  {
    var l := BidKey(org, id);
    EntryOrigin(chain, n, l);
    var b := WorldAt(chain, n)[l].version;
    AtStep(d, chain, b);
    var peer :| peer in chain[b].endorsers;
    BidWriter(d, chain[b].op, peer, chain[b].id, WorldAt(chain, b), org, id);
    assert Simulate(d, chain[b].op, peer, chain[b].id, WorldAt(chain, b)) == Ok(chain[b].rw);
    forall m | b < m <= n
      ensures l in WorldAt(chain, m)
    {
      assert At(WorldAt(chain, m), l) == At(WorldAt(chain, n), l);
    }
  }

  /** What an accepted transfer found: the caller's asset, and an ask and a bid of exactly
      the submitted bytes. */
  lemma {:induction false} TransferFinds(d: Hashing, w: Ledger, tx: SaleTx)
    requires Sound(w) && Atomic(d, w, tx) && tx.op.op.TransferAsset?
    ensures var Call(client, TransferAsset(id, buyer, price)) := tx.op;
            && price.Some? && Owner(w, id) == Some(client)
            && BytesAt(w, AskKey(client, id)) == price && BytesAt(w, BidKey(buyer, id)) == price
  {
    var peer :| peer in tx.endorsers;
    assert Simulate(d, tx.op, peer, tx.id, w) == Ok(tx.rw);
    AssetIdIsKey(w, tx.op.op.id);
  }

  /** Sale safety: over any history, the owner of an existing asset changes only by its
      owner transferring it to the new owner, with an ask the seller recorded since it
      became owner and a bid the buyer recorded, both of exactly the submitted price. */
  lemma {:induction false} OwnerChangesBySaleOnly(d: Hashing, chain: Chain, j: nat, id: string)
    returns (ask: nat, bid: nat)
    requires Run(d, chain) && j < |chain| && Owner(WorldAt(chain, j), id).Some?
    requires Owner(WorldAt(chain, j + 1), id) != Owner(WorldAt(chain, j), id)
    ensures var seller, buyer := Owner(WorldAt(chain, j), id), Owner(WorldAt(chain, j + 1), id);
            && buyer.Some? && chain[j].op.op.TransferAsset? && chain[j].op.op.price.Some?
            && chain[j].op == Call(seller.value, TransferAsset(id, buyer.value, chain[j].op.op.price))
            && ask < j && chain[ask].op == Call(seller.value, AgreeToSell(id, chain[j].op.op.price))
            && (forall m :: ask <= m <= j ==> Owner(WorldAt(chain, m), id) == seller)
            && bid < j && chain[bid].op.op.AgreeToBuy?
            && chain[bid].op == Call(buyer.value, AgreeToBuy(id, chain[bid].op.op.properties, chain[j].op.op.price))
            && (forall m :: bid < m <= j ==> BidKey(buyer.value, id) in WorldAt(chain, m))
  {
    var w, tx := WorldAt(chain, j), chain[j];
    AtStep(d, chain, j);
    AssetStep(d, w, tx, j, id);
    if tx.op.op.CreateAsset? {
      RecreatedByOwnerOnly(d, w, tx);
    }
    TransferFinds(d, w, tx);
    AskOrigin(d, chain, j, tx.op.client, id);
    BidOrigin(d, chain, j, tx.op.op.buyer, id);
    ask := w[AskKey(tx.op.client, id)].version;
    bid := w[BidKey(tx.op.op.buyer, id)].version;
  }

  lemma {:induction false} OwnedNext(d: Hashing, chain: Chain, j: nat, id: string)
    requires Run(d, chain) && j < |chain| && Owner(WorldAt(chain, j), id).Some?
    ensures Owner(WorldAt(chain, j + 1), id).Some?
  {
    AtStep(d, chain, j);
    AssetStep(d, WorldAt(chain, j), chain[j], j, id);
  }

  /** An asset, once created, always has an owner. */
  lemma {:induction false} OwnedForever(d: Hashing, chain: Chain, i: nat, j: nat, id: string)
    requires Run(d, chain) && i <= j <= |chain| && Owner(WorldAt(chain, i), id).Some?
    ensures Owner(WorldAt(chain, j), id).Some?
    decreases j - i
  {
    if i < j {
      OwnedNext(d, chain, i, id);
      OwnedForever(d, chain, i + 1, j, id);
    }
  }

  /** An accepted transfer uses up its ask and its bid. */
  lemma {:induction false} TransferConsumes(d: Hashing, chain: Chain, j: nat)
    requires Run(d, chain) && j < |chain| && chain[j].op.op.TransferAsset?
    ensures var Call(client, TransferAsset(id, buyer, _)) := chain[j].op;
            AskKey(client, id) !in WorldAt(chain, j + 1) && BidKey(buyer, id) !in WorldAt(chain, j + 1)
  {
    var Call(client, TransferAsset(id, buyer, _)) := chain[j].op;
    AtStep(d, chain, j);
    TransferClearsAsk(d, WorldAt(chain, j), chain[j], client);
    var w, ask, bid := WorldAt(chain, j), AskKey(client, id), BidKey(buyer, id);
    assert At(WorldAt(chain, j + 1), ask) == After(w, chain[j].rw, j, ask);
    assert At(WorldAt(chain, j + 1), bid) == After(w, chain[j].rw, j, bid);
  }

  /** No agreement serves two transfers: a later transfer of the asset rests on an ask
      recorded after the earlier one, and on a different bid. */
  lemma {:induction false} AgreementsServeOnce(d: Hashing, chain: Chain, i: nat, j: nat)
    requires Run(d, chain) && i < j < |chain|
    requires chain[i].op.op.TransferAsset? && chain[j].op.op.TransferAsset? && chain[i].op.op.id == chain[j].op.op.id
    ensures var askKey := AskKey(chain[j].op.client, chain[j].op.op.id);
            askKey in WorldAt(chain, j) && WorldAt(chain, j)[askKey].version > i
    ensures var earlier := BidKey(chain[i].op.op.buyer, chain[i].op.op.id);
            var later := BidKey(chain[j].op.op.buyer, chain[j].op.op.id);
            && earlier in WorldAt(chain, i) && later in WorldAt(chain, j)
            && WorldAt(chain, i)[earlier].version != WorldAt(chain, j)[later].version
  {
    var Call(first, TransferAsset(id, firstBuyer, _)) := chain[i].op;
    var Call(second, TransferAsset(_, secondBuyer, _)) := chain[j].op;
    AtStep(d, chain, i);
    AtStep(d, chain, j);
    TransferFinds(d, WorldAt(chain, i), chain[i]);
    TransferFinds(d, WorldAt(chain, j), chain[j]);
    TransferConsumes(d, chain, i);
    AskOrigin(d, chain, j, second, id);
    BidOrigin(d, chain, i, firstBuyer, id);
    BidOrigin(d, chain, j, secondBuyer, id);
    assert Owner(WorldAt(chain, i), id) == Some(first);
  }

  // ---- Provenance ----

  /** The owner holds private properties that hash to the asset's id. */
  predicate Provenant(d: Hashing, w: Ledger, id: string) {
    match Owner(w, id)
    case None => false
    case Some(owner) => HashAt(d, w, PropertiesKey(owner, id)) == Some(id)
  }

  /** The calls that break provenance: the owner bidding for its own asset with other
      properties, and the owner selling the asset to itself. */
  predicate Spoils(d: Hashing, call: Call, w: Ledger, id: string) {
    Owner(w, id) == Some(call.client) && Subject(d, call) == id &&
    match call.op
    case AgreeToBuy(_, properties, _) => properties.Some? && d.hash(properties.value) != id
    case TransferAsset(_, buyer, _) => buyer == call.client
    case _ => false
  }

  /** What a call does to one organization's copy of the properties of an asset. */
  lemma {:induction false} PropertiesWrite(d: Hashing, call: Call, peer: Org, txId: string, w: Ledger, org: Org,
                                           id: string)
    requires Sound(w) && Simulate(d, call, peer, txId, w).Ok?
    ensures var rw, l := Simulate(d, call, peer, txId, w).value, PropertiesKey(org, id);
            && l !in rw.policies
            && (l in rw.writes <==>
                  && org == call.client && id == Subject(d, call)
                  && (call.op.CreateAsset? || call.op.AgreeToBuy? || call.op.TransferAsset?))
            && (l in rw.writes ==>
                  rw.writes[l] == if call.op.TransferAsset? then None else
                    if call.op.properties.Some? then Some(Private(call.op.properties.value)) else None)
            && (l in rw.writes && !call.op.TransferAsset? ==> call.op.properties.Some?)
  {
    AssetIdIsKey(w, Subject(d, call));
    match call.op
    case CreateAsset(_, _) =>
    case ChangePublicDescription(_, _) =>
    case AgreeToSell(_, _) =>
    case AgreeToBuy(_, _, _) =>
    case TransferAsset(_, _, _) =>
  }

  lemma {:induction false} TransferComparesProperties(d: Hashing, w: Ledger, tx: SaleTx)
    requires Sound(w) && Atomic(d, w, tx) && tx.op.op.TransferAsset?
    ensures var Call(client, TransferAsset(id, buyer, _)) := tx.op;
            HashAt(d, w, PropertiesKey(buyer, id)) == HashAt(d, w, PropertiesKey(client, id))
  {
    var peer :| peer in tx.endorsers;
    assert Simulate(d, tx.op, peer, tx.id, w) == Ok(tx.rw);
    AssetIdIsKey(w, tx.op.op.id);
  }

  /** Exactly the spoiling calls take provenance away. */
  lemma {:induction false} ProvenanceStep(d: Hashing, w: Ledger, tx: SaleTx, version: nat, id: string)
    requires Sound(w) && Atomic(d, w, tx) && Provenant(d, w, id)
    ensures Provenant(d, Apply(w, tx.rw, version), id) <==> !Spoils(d, tx.op, w, id)
  {
    var u, before := Apply(w, tx.rw, version), Owner(w, id).value;
    AssetStep(d, w, tx, version, id);
    var after := Owner(u, id).value;
    var l := PropertiesKey(after, id);
    assert At(u, l) == After(w, tx.rw, version, l);
    var peer :| peer in tx.endorsers;
    assert Simulate(d, tx.op, peer, tx.id, w) == Ok(tx.rw);
    PropertiesWrite(d, tx.op, peer, tx.id, w, after, id);
    if Subject(d, tx.op) == id && tx.op.op.CreateAsset? {
      RecreatedByOwnerOnly(d, w, tx);
    } else if Subject(d, tx.op) == id && tx.op.op.TransferAsset? {
      TransferFinds(d, w, tx);
      TransferComparesProperties(d, w, tx);
    }
  }

  /** Creating an asset makes its creator the owner, holding the properties. */
  lemma {:induction false} CreatedProvenant(d: Hashing, w: Ledger, tx: SaleTx, version: nat, id: string)
    requires Sound(w) && Atomic(d, w, tx) && Owner(w, id).None? && Owner(Apply(w, tx.rw, version), id).Some?
    ensures tx.op.op.CreateAsset? && Provenant(d, Apply(w, tx.rw, version), id)
  {
    var u := Apply(w, tx.rw, version);
    AssetStep(d, w, tx, version, id);
    if tx.op.op.TransferAsset? {
      TransferFinds(d, w, tx);
    }
    var l := PropertiesKey(tx.op.client, id);
    assert At(u, l) == After(w, tx.rw, version, l);
    var peer :| peer in tx.endorsers;
    assert Simulate(d, tx.op, peer, tx.id, w) == Ok(tx.rw);
    PropertiesWrite(d, tx.op, peer, tx.id, w, tx.op.client, id);
  }

  /** Provenance over any history in which no accepted call spoils it. */
  lemma {:induction false} ProvenanceKept(d: Hashing, chain: Chain, n: nat, id: string)
    requires Run(d, chain) && n <= |chain| && Owner(WorldAt(chain, n), id).Some?
    requires forall j :: 0 <= j < n ==> !Spoils(d, chain[j].op, WorldAt(chain, j), id)
    ensures Provenant(d, WorldAt(chain, n), id)
  {
    if n > 0 {
      var m := n - 1;
      var w := WorldAt(chain, m);
      AtStep(d, chain, m);
      if Owner(w, id).None? {
        CreatedProvenant(d, w, chain[m], m, id);
      } else {
        ProvenanceKept(d, chain, m, id);
        ProvenanceStep(d, w, chain[m], m, id);
      }
    }
  }

  /** With provenance, VerifyAssetProperties says yes to the properties behind the id and
      to no others. */
  lemma {:induction false} VerifiesExactly(d: Hashing, chain: Chain, id: string, properties: string)
    requires Run(d, chain) && Provenant(d, Replay(chain), id)
    ensures Verdict(d, Replay(chain), id, Some(properties)) == Ok(true) <==> d.hash(properties) == id
    ensures Verdict(d, Replay(chain), id, Some(properties)) == Ok(true) <==>
            BytesAt(Replay(chain), PropertiesKey(Owner(Replay(chain), id).value, id)) == Some(properties)
  {
    HistoryIsSound(d, chain);
  }

  lemma {:induction false} RunGrows(d: Hashing, chain: Chain, tx: SaleTx)
    requires Run(d, chain) && EndorsedAt(d, chain, tx) && Accepts(chain, tx)
    ensures Run(d, chain + [tx])
  {
    var next := chain + [tx];
    assert next[..|chain|] == chain;
    forall j | 0 <= j < |next|
      ensures EndorsedAt(d, next, next[j])
    {
      assert j < |chain| ==> EndorsedAt(d, chain, chain[j]);
      PrefixWorld(next, |chain|, next[j].height);
    }
  }

  lemma {:induction false} FirstCreate(d: Hashing, owner: Org, properties: string) returns (create: SaleTx)
    requires d.hash(properties) != ""
    ensures Run(d, [create]) && create.id == "t0" && create.op == Call(owner, CreateAsset(Some(properties), ""))
    ensures Owner(Replay([create]), d.hash(properties)) == Some(owner)
    ensures Provenant(d, Replay([create]), d.hash(properties))
  {
    var id := d.hash(properties);
    create := Tx("t0", Call(owner, CreateAsset(Some(properties), "")), 0, {owner},
                 CreateSets(d, owner, owner, Some(properties), "").value);
    var none: Chain := [];
    assert none + [create] == [create];
    OwnCallIsAccepted(d, none, create, owner);
    AssetStep(d, Replay(none), create, 0, id);
    CreatedProvenant(d, Replay(none), create, 0, id);
  }

  /** A call that touches only what its organization may endorse alone. */
  ghost predicate OwnCall(d: Hashing, chain: Chain, tx: SaleTx, org: Org) {
    var w := Replay(chain);
    && tx.height == |chain| && tx.endorsers == {org} && !Used(chain, tx.id)
    && Simulate(d, tx.op, org, tx.id, w) == Ok(tx.rw)
    && forall l :: l in tx.rw.writes.Keys + tx.rw.policies.Keys ==>
         l.space == Implicit(org) || (l.space == Channel && l.key.Plain? && Owner(w, l.key.name) in {None, Some(org)})
  }

  lemma {:induction false} OwnCallIsAccepted(d: Hashing, chain: Chain, tx: SaleTx, org: Org)
    requires Run(d, chain) && OwnCall(d, chain, tx, org)
    ensures Run(d, chain + [tx]) && Sound(Replay(chain)) && Atomic(d, Replay(chain), tx)
    ensures Replay(chain + [tx]) == Apply(Replay(chain), tx.rw, |chain|)
  {
    var w := Replay(chain);
    assert chain[..|chain|] == chain && (chain + [tx])[..|chain|] == chain;
    HistoryIsSound(d, chain);
    SimulationIsFresh(d, tx.op, org, tx.id, w);
    forall l | l in tx.rw.writes.Keys + tx.rw.policies.Keys
      ensures l.space.Implicit? ==> l.space.org in tx.endorsers
      ensures l in w ==> w[l].policy <= tx.endorsers
    {
      if l in w {
        assert SoundEntry(w, l);
      }
    }
    RunGrows(d, chain, tx);
    AcceptedIsAtomic(d, chain, tx);
  }

  /** The spoiling calls can happen: an owner's bid with other properties is accepted. */
  lemma {:induction false} OwnersBidCanSpoil(d: Hashing, owner: Org, properties: string, others: string, price: string)
    returns (chain: Chain)
    requires properties != others && d.hash(properties) != "" && ValidAttributes([BID, d.hash(properties)])
    ensures Run(d, chain) && |chain| == 2
    ensures Provenant(d, Replay(chain[..1]), d.hash(properties)) && !Provenant(d, Replay(chain), d.hash(properties))
  {
    var id := d.hash(properties);
    var create := FirstCreate(d, owner, properties);
    var bid := Tx("t1", Call(owner, AgreeToBuy(id, Some(others), Some(price))), 1, {owner},
                  BuySets(owner, owner, id, Some(others), Some(price)).value);
    OwnCallIsAccepted(d, [create], bid, owner);
    ProvenanceStep(d, Replay([create]), bid, 1, id);
    chain := [create] + [bid];
    assert chain[..1] == [create];
  }

  /** An asset and its owner, who holds the properties behind it. */
  ghost predicate Holds(d: Hashing, w: Ledger, owner: Org, id: string, properties: string) {
    Owner(w, id) == Some(owner) && d.hash(properties) == id && BytesAt(w, PropertiesKey(owner, id)) == Some(properties)
  }

  lemma {:induction false} BytesAfter(w: Ledger, rw: Sets, version: nat, l: Loc)
    ensures BytesAt(Apply(w, rw, version), l) ==
            if l !in rw.writes then BytesAt(w, l)
            else if rw.writes[l].Some? && rw.writes[l].value.Private? then Some(rw.writes[l].value.bytes) else None
  {
    assert At(Apply(w, rw, version), l) == After(w, rw, version, l);
  }

  lemma {:induction false} OwnerAsks(d: Hashing, chain: Chain, owner: Org, id: string, properties: string,
                                     price: string, txId: string) returns (ask: SaleTx)
    requires Run(d, chain) && Holds(d, Replay(chain), owner, id, properties)
    requires ValidAttributes([FOR_SALE, id]) && !Used(chain, txId)
    ensures ask.id == txId && ask.op == Call(owner, AgreeToSell(id, Some(price)))
    ensures Run(d, chain + [ask]) && Holds(d, Replay(chain + [ask]), owner, id, properties)
    ensures BytesAt(Replay(chain + [ask]), AskKey(owner, id)) == Some(price)
  {
    var w := Replay(chain);
    ask := Tx(txId, Call(owner, AgreeToSell(id, Some(price))), |chain|, {owner},
              SellSets(w, owner, owner, id, Some(price)).value);
    OwnCallIsAccepted(d, chain, ask, owner);
    AssetStep(d, w, ask, |chain|, id);
    BytesAfter(w, ask.rw, |chain|, PropertiesKey(owner, id));
    BytesAfter(w, ask.rw, |chain|, AskKey(owner, id));
  }

  lemma {:induction false} OwnerBids(d: Hashing, chain: Chain, owner: Org, id: string, properties: string,
                                     price: string, txId: string) returns (bid: SaleTx)
    requires Run(d, chain) && Holds(d, Replay(chain), owner, id, properties)
    requires id != "" && ValidAttributes([BID, id]) && !Used(chain, txId)
    ensures bid.id == txId && Run(d, chain + [bid]) && Holds(d, Replay(chain + [bid]), owner, id, properties)
    ensures BytesAt(Replay(chain + [bid]), AskKey(owner, id)) == BytesAt(Replay(chain), AskKey(owner, id))
    ensures BytesAt(Replay(chain + [bid]), BidKey(owner, id)) == Some(price)
  {
    var w := Replay(chain);
    bid := Tx(txId, Call(owner, AgreeToBuy(id, Some(properties), Some(price))), |chain|, {owner},
              BuySets(owner, owner, id, Some(properties), Some(price)).value);
    OwnCallIsAccepted(d, chain, bid, owner);
    AssetStep(d, w, bid, |chain|, id);
    BytesAfter(w, bid.rw, |chain|, PropertiesKey(owner, id));
    BytesAfter(w, bid.rw, |chain|, AskKey(owner, id));
    BytesAfter(w, bid.rw, |chain|, BidKey(owner, id));
  }

  lemma {:induction false} NoObjectionToOneself(d: Hashing, w: Ledger, owner: Org, id: string, properties: string,
                                                price: string)
    requires Sound(w) && Holds(d, w, owner, id, properties)
    requires BytesAt(w, AskKey(owner, id)) == BytesAt(w, BidKey(owner, id)) == Some(price) && ValidAttribute(id)
    ensures AssetAt(w, id).Ok? && AssetAt(w, id).value.id == id
    ensures Objection(d, w, AssetAt(w, id).value, owner, owner, price).None?
  {
    AssetIdIsKey(w, id);
  }

  lemma {:induction false} SellsToItself(d: Hashing, w: Ledger, owner: Org, id: string, price: string, txId: string)
    requires AssetAt(w, id).Ok? && AssetAt(w, id).value.id == id && id != "" && ValidAttribute(txId)
    requires Objection(d, w, AssetAt(w, id).value, owner, owner, price).None? && d.agreement(price).Some?
    ensures var r := TransferSets(d, w, txId, owner, id, owner, Some(price));
            && r.Ok?
            && forall l :: l in r.value.writes.Keys + r.value.policies.Keys ==>
                 l.space == Implicit(owner) || l == AssetKey(id)
  {
  }

  lemma {:induction false} OwnerSellsToItself(d: Hashing, chain: Chain, owner: Org, id: string, properties: string,
                                              price: string, txId: string) returns (sale: SaleTx)
    requires Run(d, chain) && Holds(d, Replay(chain), owner, id, properties)
    requires BytesAt(Replay(chain), AskKey(owner, id)) == BytesAt(Replay(chain), BidKey(owner, id)) == Some(price)
    requires id != "" && ValidAttribute(id) && ValidAttribute(txId) && !Used(chain, txId) && d.agreement(price).Some?
    ensures sale.op == Call(owner, TransferAsset(id, owner, Some(price)))
    ensures Run(d, chain + [sale]) && Owner(Replay(chain + [sale]), id) == Some(owner)
    ensures !Provenant(d, Replay(chain + [sale]), id)
  {
    var w := Replay(chain);
    HistoryIsSound(d, chain);
    NoObjectionToOneself(d, w, owner, id, properties, price);
    SellsToItself(d, w, owner, id, price, txId);
    sale := Tx(txId, Call(owner, TransferAsset(id, owner, Some(price))), |chain|, {owner},
               TransferSets(d, w, txId, owner, id, owner, Some(price)).value);
    OwnCallIsAccepted(d, chain, sale, owner);
    AssetStep(d, w, sale, |chain|, id);
    ProvenanceStep(d, w, sale, |chain|, id);
  }

  lemma {:induction false} HoldsProperties(d: Hashing, chain: Chain, id: string) returns (properties: string)
    requires Run(d, chain) && Provenant(d, Replay(chain), id)
    ensures Holds(d, Replay(chain), Owner(Replay(chain), id).value, id, properties)
  {
    HistoryIsSound(d, chain);
    var l := PropertiesKey(Owner(Replay(chain), id).value, id);
    assert SoundEntry(Replay(chain), l);
    properties := Replay(chain)[l].value.bytes;
  }

  lemma {:induction false} OwnerAgreesWithItself(d: Hashing, chain: Chain, owner: Org, id: string,
                                                 properties: string, price: string, first: string, second: string)
    returns (ask: SaleTx, bid: SaleTx)
    requires Run(d, chain) && Holds(d, Replay(chain), owner, id, properties)
    requires id != "" && ValidAttribute(id) && !Used(chain, first) && !Used(chain, second) && first != second
    ensures ask.id == first && bid.id == second && Run(d, chain + [ask] + [bid])
    ensures var w := Replay(chain + [ask] + [bid]);
            && Holds(d, w, owner, id, properties)
            && BytesAt(w, AskKey(owner, id)) == BytesAt(w, BidKey(owner, id)) == Some(price)
  {
    assert ValidAttributes([FOR_SALE, id]) && ValidAttributes([BID, id]);
    ask := OwnerAsks(d, chain, owner, id, properties, price, first);
    UsedGrows(chain, ask, second);
    bid := OwnerBids(d, chain + [ask], owner, id, properties, price, second);
  }

  /** And so is a sale to itself. From any history that ends in provenance, three calls of
      the owner alone, an ask, a bid with the right properties and the transfer, are
      accepted, and leave it the owner without the properties. */
  lemma {:induction false} SaleToItselfSpoils(d: Hashing, chain: Chain, id: string, price: string, first: string,
                                              second: string, third: string) returns (later: Chain)
    requires Run(d, chain) && Provenant(d, Replay(chain), id) && d.agreement(price).Some?
    requires id != "" && ValidAttribute(id) && ValidAttribute(third)
    requires !Used(chain, first) && !Used(chain, second) && !Used(chain, third)
    requires first != second && second != third && first != third
    ensures Run(d, later) && chain <= later && |later| == |chain| + 3
    ensures Owner(Replay(later), id) == Owner(Replay(chain), id)
    ensures !Provenant(d, Replay(later), id)
  {
    var owner := Owner(Replay(chain), id).value;
    var properties := HoldsProperties(d, chain, id);
    var ask, bid := OwnerAgreesWithItself(d, chain, owner, id, properties, price, first, second);
    UsedGrows(chain, ask, third);
    UsedGrows(chain + [ask], bid, third);
    var sale := OwnerSellsToItself(d, chain + [ask] + [bid], owner, id, properties, price, third);
    later := chain + [ask] + [bid] + [sale];
  }

  /** In particular right after the asset was created. */
  lemma {:induction false} NewAssetCanBeSpoilt(d: Hashing, owner: Org, properties: string, price: string)
    returns (chain: Chain)
    requires d.hash(properties) != "" && ValidAttribute(d.hash(properties)) && d.agreement(price).Some?
    ensures Run(d, chain) && |chain| == 4 && chain[0].op == Call(owner, CreateAsset(Some(properties), ""))
    ensures Owner(Replay(chain), d.hash(properties)) == Some(owner) && !Provenant(d, Replay(chain), d.hash(properties))
  {
    var create := FirstCreate(d, owner, properties);
    assert "t1" != "t2" && "t2" != "t3" && "t1" != "t3" && "t0" !in {"t1", "t2", "t3"} by {
      assert "t0"[1] == '0' && "t1"[1] == '1' && "t2"[1] == '2' && "t3"[1] == '3';
    }
    chain := SaleToItselfSpoils(d, [create], d.hash(properties), price, "t1", "t2", "t3");
    assert chain[0] == [create][0];
  }
}
