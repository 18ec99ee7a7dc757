/** What each call of the secured-agreement contract does to every value on the ledger, when
    it succeeds, and that sales take place. */
module SecuredAgreementEffects {
  import opened Wrappers
  import opened Fabric
  import opened CompositeKeys
  import opened SecuredAgreement
  import opened SecuredAgreementProofs

  // ---- The effect of each call ----

  /** What `ReadAsset(id)` answers after a call, `before` being its answer until then. */
  function AssetAfter(d: Hashing, call: Call, id: string, before: Result<Asset, Fault>): Result<Asset, Fault> {
    match call.op
    case CreateAsset(Some(properties), description) =>
      if d.hash(properties) == id then Ok(Asset(id, call.client, description)) else before
    case ChangePublicDescription(changed, description) =>
      if changed == id && before.Ok? then Ok(Asset(id, before.value.ownerOrg, description)) else before
    case TransferAsset(sold, buyer, _) =>
      if sold == id && before.Ok? then Ok(Asset(id, buyer, before.value.publicDescription)) else before
    case _ => before
  }

  /** The bytes under a key of an organization's collection after a call. */
  function BytesAfterCall(d: Hashing, call: Call, txId: string, org: Org, key: Key, before: Option<string>)
    : Option<string>
  {
    match call.op
    case CreateAsset(Some(properties), _) =>
      if org == call.client && key == Plain(d.hash(properties)) then Some(properties) else before
    case AgreeToSell(id, price) => if org == call.client && key == Composite("S", [id]) then price else before
    case AgreeToBuy(id, properties, price) =>
      if org == call.client && key == Plain(id) then properties
      else if org == call.client && key == Composite("B", [id]) then price
      else before
    case TransferAsset(id, buyer, _) =>
      if org == call.client && key in {Plain(id), Composite("S", [id])} then None
      else if org == buyer && key == Composite("B", [id]) then None
      else if org == buyer && key == Composite("BR", [id, txId]) then Some("{}")
      else if org == call.client && key == Composite("SR", [txId, id]) then Some("{}")
      else before
    case _ => before
  }

  function InCollection(org: Org, key: Key): Loc {
    Loc(Implicit(org), key)
  }

  /** `u` is `w` after a call. */
  ghost predicate Follows(d: Hashing, call: Call, txId: string, w: Ledger, u: Ledger) {
    && (forall id :: AssetAt(u, id) == AssetAfter(d, call, id, AssetAt(w, id)))
    && (forall org, key ::
          BytesAt(u, InCollection(org, key))
          == BytesAfterCall(d, call, txId, org, key, BytesAt(w, InCollection(org, key))))
  }

  lemma {:induction false} ReadsAfter(w: Ledger, rw: Sets, version: nat, id: string)
    ensures var l := AssetKey(id);
            AssetAt(Apply(w, rw, version), id) ==
            if l !in rw.writes then AssetAt(w, id)
            else match rw.writes[l]
                 case None => Err(NoAsset)
                 case Some(Public(asset)) => Ok(asset)
                 case Some(_) => Err(NotAnAsset)
  {
    assert At(Apply(w, rw, version), AssetKey(id)) == After(w, rw, version, AssetKey(id));
  }

  lemma {:induction false} TransferIs(d: Hashing, call: Call, txId: string, w: Ledger, rw: Sets)
    requires Sound(w) && call.op.TransferAsset?
    requires TransferSets(d, w, txId, call.client, call.op.id, call.op.buyer, call.op.price) == Ok(rw)
    ensures AssetAt(w, call.op.id).Ok? && AssetAt(w, call.op.id).value.id == call.op.id
    ensures rw.writes == TransferWrites(AssetAt(w, call.op.id).value, call.client, call.op.buyer, txId)
    ensures rw.policies == map[AssetKey(call.op.id) := {call.op.buyer}]
  {
    AssetIdIsKey(w, call.op.id);
  }

  lemma {:induction false} TransferWritesAsset(d: Hashing, call: Call, txId: string, w: Ledger, rw: Sets, version: nat,
                                               asset: Asset, id: string)
    requires call.op.TransferAsset? && AssetAt(w, call.op.id) == Ok(asset) && asset.id == call.op.id
    requires rw.writes == TransferWrites(asset, call.client, call.op.buyer, txId)
    ensures AssetAt(Apply(w, rw, version), id) == AssetAfter(d, call, id, AssetAt(w, id))
  {
    ReadsAfter(w, rw, version, id);
  }

  lemma {:induction false} WritesTheAsset(d: Hashing, call: Call, peer: Org, txId: string, w: Ledger, version: nat,
                                          rw: Sets, id: string)
    requires Sound(w) && Simulate(d, call, peer, txId, w) == Ok(rw)
    ensures AssetAt(Apply(w, rw, version), id) == AssetAfter(d, call, id, AssetAt(w, id))
  {
    if call.op.TransferAsset? {
      TransferIs(d, call, txId, w, rw);
      TransferWritesAsset(d, call, txId, w, rw, version, AssetAt(w, call.op.id).value, id);
    } else {
      ReadsAfter(w, rw, version, id);
      AssetIdIsKey(w, id);
    }
  }

  lemma {:induction false} TransferWritesBytes(d: Hashing, call: Call, txId: string, w: Ledger, rw: Sets, version: nat,
                                               asset: Asset, org: Org, key: Key)
    requires call.op.TransferAsset? && asset.id == call.op.id
    requires rw.writes == TransferWrites(asset, call.client, call.op.buyer, txId)
    ensures BytesAt(Apply(w, rw, version), InCollection(org, key))
         == BytesAfterCall(d, call, txId, org, key, BytesAt(w, InCollection(org, key)))
  {
    BytesAfter(w, rw, version, InCollection(org, key));
  }

  lemma {:induction false} WritesTheBytes(d: Hashing, call: Call, peer: Org, txId: string, w: Ledger, version: nat,
                                          rw: Sets, org: Org, key: Key)
    requires Sound(w) && Simulate(d, call, peer, txId, w) == Ok(rw)
    ensures BytesAt(Apply(w, rw, version), InCollection(org, key))
         == BytesAfterCall(d, call, txId, org, key, BytesAt(w, InCollection(org, key)))
  {
    if call.op.TransferAsset? {
      TransferIs(d, call, txId, w, rw);
      TransferWritesBytes(d, call, txId, w, rw, version, AssetAt(w, call.op.id).value, org, key);
    } else {
      BytesAfter(w, rw, version, InCollection(org, key));
    }
  }

  lemma {:induction false} StepFollows(d: Hashing, w: Ledger, tx: SaleTx, version: nat)
    requires Sound(w) && Atomic(d, w, tx)
    ensures Follows(d, tx.op, tx.id, w, Apply(w, tx.rw, version))
  {
    var peer :| peer in tx.endorsers;
    assert Simulate(d, tx.op, peer, tx.id, w) == Ok(tx.rw);
    forall id {
      WritesTheAsset(d, tx.op, peer, tx.id, w, version, tx.rw, id);
    }
    forall org, key {
      WritesTheBytes(d, tx.op, peer, tx.id, w, version, tx.rw, org, key);
    }
  }

  /** Every committed call, whenever it was endorsed, does exactly this to the public assets
      and to every private value. */
  lemma {:induction false} EachCallFollows(d: Hashing, chain: Chain, j: nat)
    requires Run(d, chain) && j < |chain|
    ensures Follows(d, chain[j].op, chain[j].id, WorldAt(chain, j), WorldAt(chain, j + 1))
  {
    AtStep(d, chain, j);
    StepFollows(d, WorldAt(chain, j), chain[j], j);
  }

  // ---- When a sale succeeds ----

  /** Both sides are ready for a sale: the same properties, and an ask and a bid of the
      submitted price. */
  ghost predicate BothAgree(w: Ledger, seller: Org, buyer: Org, id: string, price: string) {
    && BytesAt(w, PropertiesKey(seller, id)).Some?
    && BytesAt(w, PropertiesKey(seller, id)) == BytesAt(w, PropertiesKey(buyer, id))
    && BytesAt(w, AskKey(seller, id)) == Some(price) && BytesAt(w, BidKey(buyer, id)) == Some(price)
  }

  lemma {:induction false} LawfulParts(priceType: string, id: string)
    requires priceType in {"S", "B"}
    ensures ValidAttributes([priceType, id]) <==> ValidAttribute(id)
  {
    var parts := [priceType, id];
    if ValidAttributes(parts) {
      assert ValidAttribute(parts[1]);
    }
  }

  lemma {:induction false} HashesOfBytes(d: Hashing, w: Ledger, org: Org, key: Key)
    requires Sound(w)
    ensures HashAt(d, w, InCollection(org, key))
         == match BytesAt(w, InCollection(org, key)) case Some(bytes) => Some(d.hash(bytes)) case None => None
  {
    if InCollection(org, key) in w {
      assert SoundEntry(w, InCollection(org, key));
    }
  }

  /** When a sale succeeds: the owner can sell to any organization, itself included, as soon
      as both agree, and not before. */
  lemma {:induction false} TransfersExactlyWhen(d: Hashing, w: Ledger, txId: string, client: Org, id: string,
                                                buyer: Org, price: string)
    requires Sound(w)
    ensures TransferSets(d, w, txId, client, id, buyer, Some(price)).Ok? <==>
            && d.agreement(price).Some? && Owner(w, id) == Some(client) && BothAgree(w, client, buyer, id, price)
            && id != "" && ValidAttribute(id) && ValidAttribute(txId)
  {
    AssetIdIsKey(w, id);
    HashesOfBytes(d, w, client, Plain(id));
    HashesOfBytes(d, w, buyer, Plain(id));
    HashesOfBytes(d, w, client, Composite(FOR_SALE, [id]));
    HashesOfBytes(d, w, buyer, Composite(BID, [id]));
  }

  // ---- Why calls fail ----

  /** The first of the reasons for which a sale fails, from what the ledger holds. */
  function SaleFails(d: Hashing, call: Call, txId: string, w: Ledger): Option<Fault>
    requires call.op.TransferAsset?
  {
    var Call(client, TransferAsset(id, buyer, price)) := call;
    var mine, theirs := BytesAt(w, PropertiesKey(client, id)), BytesAt(w, PropertiesKey(buyer, id));
    var ask, bid := BytesAt(w, AskKey(client, id)), BytesAt(w, BidKey(buyer, id));
    if price == None then Some(MissingTransient)
    else if d.agreement(price.value) == None then Some(BadPrice)
    else if Owner(w, id) == None then Some(NoAsset)
    else if Owner(w, id) != Some(client) then Some(NotOwner)
    else if mine == None || theirs == None then Some(NoProperties)
    else if mine != theirs then Some(PropertiesDiffer)
    else if !ValidAttribute(id) then Some(BadKey)
    else if ask == None then Some(NoAsk)
    else if bid == None then Some(NoBid)
    else if ask != price || bid != price then Some(PriceDiffers)
    else if id == "" then Some(EmptyKey)
    else if !ValidAttribute(txId) then Some(BadKey)
    else None
  }

  /** And any call. */
  function Fails(d: Hashing, call: Call, peer: Org, txId: string, w: Ledger): Option<Fault> {
    match call.op
    case CreateAsset(properties, _) =>
      if properties == None then Some(MissingTransient)
      else if call.client != peer then Some(WrongPeer)
      else if d.hash(properties.value) == "" then Some(EmptyKey)
      else None
    case ChangePublicDescription(id, _) =>
      if Owner(w, id) == None then Some(NoAsset)
      else if Owner(w, id) != Some(call.client) then Some(NotOwner)
      else if id == "" then Some(EmptyKey)
      else None
    case AgreeToSell(id, price) =>
      if Owner(w, id) == None then Some(NoAsset)
      else if call.client != peer then Some(WrongPeer)
      else if Owner(w, id) != Some(call.client) then Some(NotOwner)
      else if price == None then Some(MissingTransient)
      else if !ValidAttribute(id) then Some(BadKey)
      else None
    case AgreeToBuy(id, properties, price) =>
      if call.client != peer then Some(WrongPeer)
      else if properties == None then Some(MissingTransient)
      else if id == "" then Some(EmptyKey)
      else if price == None then Some(MissingTransient)
      else if !ValidAttribute(id) then Some(BadKey)
      else None
    case TransferAsset(_, _, _) => SaleFails(d, call, txId, w)
  }

  lemma {:induction false} AbsentMeansNoAsset(w: Ledger, id: string)
    requires Sound(w)
    ensures Owner(w, id) == None <==> AssetAt(w, id) == Err(NoAsset)
  {
    if AssetKey(id) in w {
      assert SoundEntry(w, AssetKey(id));
    }
  }

  lemma {:induction false} SaleFailsForTheFirst(d: Hashing, call: Call, txId: string, w: Ledger)
    requires Sound(w) && call.op.TransferAsset?
    ensures match SaleFails(d, call, txId, w)
            case Some(e) => TransferSets(d, w, txId, call.client, call.op.id, call.op.buyer, call.op.price) == Err(e)
            case None => TransferSets(d, w, txId, call.client, call.op.id, call.op.buyer, call.op.price).Ok?
  {
    var Call(client, TransferAsset(id, buyer, price)) := call;
    AssetIdIsKey(w, id);
    AbsentMeansNoAsset(w, id);
    HashesOfBytes(d, w, client, Plain(id));
    HashesOfBytes(d, w, buyer, Plain(id));
    HashesOfBytes(d, w, client, Composite(FOR_SALE, [id]));
    HashesOfBytes(d, w, buyer, Composite(BID, [id]));
  }

  /** In every history a call fails for the first of its reasons that holds, and succeeds
      when none does. */
  lemma {:induction false} FailsForTheFirst(d: Hashing, call: Call, peer: Org, txId: string, w: Ledger)
    requires Sound(w)
    ensures match Fails(d, call, peer, txId, w)
            case Some(e) => Simulate(d, call, peer, txId, w) == Err(e)
            case None => Simulate(d, call, peer, txId, w).Ok?
  {
    AssetIdIsKey(w, Subject(d, call));
    AbsentMeansNoAsset(w, Subject(d, call));
    match call.op
    case CreateAsset(_, _) =>
    case ChangePublicDescription(_, _) =>
    case AgreeToSell(id, _) => LawfulParts("S", id);
    case AgreeToBuy(id, _, _) => LawfulParts("B", id);
    case TransferAsset(_, _, _) => SaleFailsForTheFirst(d, call, txId, w);
  }

  /** What VerifyAssetProperties answers about any properties, from what the ledger holds. */
  lemma {:induction false} VerdictIs(d: Hashing, w: Ledger, id: string, properties: string)
    requires Sound(w)
    ensures var verdict := Verdict(d, w, id, Some(properties));
            match Owner(w, id)
            case None => verdict == Err(NoAsset)
            case Some(owner) =>
              match BytesAt(w, PropertiesKey(owner, id))
              case None => verdict == Err(NoProperties)
              case Some(held) =>
                if held != properties then verdict == Err(PropertiesDiffer)
                else if d.hash(properties) != id then verdict == Err(Altered)
                else verdict == Ok(true)
  {
    AssetIdIsKey(w, id);
    AbsentMeansNoAsset(w, id);
    if Owner(w, id).Some? {
      HashesOfBytes(d, w, Owner(w, id).value, Plain(id));
    }
  }

  /** What a listed agreement is read from. */
  lemma {:induction false} AgreementsAreRead(d: Hashing, w: Ledger, org: Org, agreeType: string, l: Loc)
    requires Sound(w) && l in Scan(w, AgreementsOf(org, agreeType))
    ensures l.space == Implicit(org) && BytesAt(w, l).Some?
    ensures AgreementAt(d, w, l) == d.agreement(BytesAt(w, l).value)
  {
    assert SoundEntry(w, l);
  }

  // ---- Sales take place ----

  lemma {:induction false} EndorsedExactlyByBoth(w: Ledger, rw: Sets, endorsers: set<Org>, asset: Asset, seller: Org,
                                                 buyer: Org, txId: string)
    requires Sound(w) && AssetAt(w, asset.id) == Ok(asset) && asset.ownerOrg == seller
    requires rw.writes == TransferWrites(asset, seller, buyer, txId)
    requires rw.policies == map[AssetKey(asset.id) := {buyer}]
    ensures Endorsed(w, rw, endorsers) <==> seller in endorsers && buyer in endorsers
  {
    var keys := rw.writes.Keys + rw.policies.Keys;
    assert PropertiesKey(seller, asset.id) in keys && BidKey(buyer, asset.id) in keys;
    forall l | l in keys
      ensures l == AssetKey(asset.id) || l.space in {Implicit(seller), Implicit(buyer)}
      ensures l in w ==> w[l].policy <= {seller}
    {
      if l in w {
        assert SoundEntry(w, l);
      }
    }
  }

  /** Endorsed at the current height, a sale is accepted if and only if seller and buyer are
      both among its endorsers. */
  lemma {:induction false} SaleAcceptedExactlyFromBoth(d: Hashing, chain: Chain, tx: SaleTx)
    requires Run(d, chain) && EndorsedAt(d, chain, tx) && tx.height == |chain| && !Used(chain, tx.id)
    requires tx.op.op.TransferAsset?
    ensures Accepts(chain, tx) <==> tx.op.client in tx.endorsers && tx.op.op.buyer in tx.endorsers
  {
    var w := Replay(chain);
    assert chain[..|chain|] == chain;
    HistoryIsSound(d, chain);
    var peer :| peer in tx.endorsers;
    assert Simulate(d, tx.op, peer, tx.id, w) == Ok(tx.rw);
    SimulationIsFresh(d, tx.op, peer, tx.id, w);
    TransferIs(d, tx.op, tx.id, w, tx.rw);
    OwnerSells(d, w, tx.op, peer, tx.id);
    EndorsedExactlyByBoth(w, tx.rw, tx.endorsers, AssetAt(w, tx.op.op.id).value, tx.op.client, tx.op.op.buyer, tx.id);
  }

  lemma {:induction false} OwnerSells(d: Hashing, w: Ledger, call: Call, peer: Org, txId: string)
    requires Sound(w) && call.op.TransferAsset? && Simulate(d, call, peer, txId, w).Ok?
    ensures Owner(w, call.op.id) == Some(call.client)
  {
    TransfersExactlyWhen(d, w, txId, call.client, call.op.id, call.op.buyer, call.op.price.value);
  }

  /** Any other organization can bid for an asset, with its owner's properties or others. */
  lemma {:induction false} AnyoneBids(d: Hashing, chain: Chain, buyer: Org, id: string, properties: string,
                                      price: string, txId: string) returns (bid: SaleTx)
    requires Run(d, chain) && id != "" && ValidAttribute(id) && !Used(chain, txId)
    ensures bid.id == txId && bid.op == Call(buyer, AgreeToBuy(id, Some(properties), Some(price)))
    ensures Run(d, chain + [bid]) && Follows(d, bid.op, txId, Replay(chain), Replay(chain + [bid]))
  {
    LawfulParts("B", id);
    bid := Tx(txId, Call(buyer, AgreeToBuy(id, Some(properties), Some(price))), |chain|, {buyer},
              BuySets(buyer, buyer, id, Some(properties), Some(price)).value);
    OwnCallIsAccepted(d, chain, bid, buyer);
    StepFollows(d, Replay(chain), bid, |chain|);
  }

  lemma {:induction false} BidReadies(d: Hashing, w: Ledger, u: Ledger, seller: Org, buyer: Org, id: string,
                                      properties: string, price: string, txId: string)
    requires Follows(d, Call(buyer, AgreeToBuy(id, Some(properties), Some(price))), txId, w, u) && seller != buyer
    requires Holds(d, w, seller, id, properties) && BytesAt(w, AskKey(seller, id)) == Some(price)
    ensures Holds(d, u, seller, id, properties) && BothAgree(u, seller, buyer, id, price)
  {
    assert PropertiesKey(seller, id) == InCollection(seller, Plain(id));
    assert PropertiesKey(buyer, id) == InCollection(buyer, Plain(id));
    assert AskKey(seller, id) == InCollection(seller, Composite("S", [id]));
    assert BidKey(buyer, id) == InCollection(buyer, Composite("B", [id]));
  }

  lemma {:induction false} ReadyToSell(d: Hashing, chain: Chain, seller: Org, buyer: Org, id: string,
                                       properties: string, price: string, first: string, second: string)
    returns (ask: SaleTx, bid: SaleTx)
    requires Run(d, chain) && Holds(d, Replay(chain), seller, id, properties) && seller != buyer
    requires id != "" && ValidAttribute(id) && !Used(chain, first) && !Used(chain, second) && first != second
    ensures ask.id == first && ask.op == Call(seller, AgreeToSell(id, Some(price)))
    ensures bid.id == second && bid.op == Call(buyer, AgreeToBuy(id, Some(properties), Some(price)))
    ensures Run(d, chain + [ask] + [bid]) && Holds(d, Replay(chain + [ask] + [bid]), seller, id, properties)
    ensures BothAgree(Replay(chain + [ask] + [bid]), seller, buyer, id, price)
  {
    LawfulParts("S", id);
    ask := OwnerAsks(d, chain, seller, id, properties, price, first);
    UsedGrows(chain, ask, second);
    bid := AnyoneBids(d, chain + [ask], buyer, id, properties, price, second);
    BidReadies(d, Replay(chain + [ask]), Replay(chain + [ask] + [bid]), seller, buyer, id, properties, price, second);
  }

  lemma {:induction false} SaleMoves(d: Hashing, w: Ledger, u: Ledger, seller: Org, buyer: Org, id: string,
                                     properties: string, price: string, txId: string)
    requires Follows(d, Call(seller, TransferAsset(id, buyer, Some(price))), txId, w, u) && seller != buyer
    requires Holds(d, w, seller, id, properties) && BothAgree(w, seller, buyer, id, price)
    ensures Holds(d, u, buyer, id, properties) && BytesAt(u, PropertiesKey(seller, id)) == None
  {
    assert PropertiesKey(seller, id) == InCollection(seller, Plain(id));
    assert PropertiesKey(buyer, id) == InCollection(buyer, Plain(id));
  }

  /** A sale goes through: once the buyer has agreed to the owner's properties and price, the
      owner's transfer, endorsed by both, is accepted, and leaves the buyer the owner, with
      the properties, which the seller no longer has. */
  lemma {:induction false} SaleGoesThrough(d: Hashing, chain: Chain, seller: Org, buyer: Org, id: string,
                                           properties: string, price: string, txId: string) returns (sale: SaleTx)
    requires Run(d, chain) && Holds(d, Replay(chain), seller, id, properties) && seller != buyer
    requires BothAgree(Replay(chain), seller, buyer, id, price) && d.agreement(price).Some?
    requires id != "" && ValidAttribute(id) && ValidAttribute(txId) && !Used(chain, txId)
    ensures sale.id == txId && sale.op == Call(seller, TransferAsset(id, buyer, Some(price)))
    ensures sale.endorsers == {seller, buyer} && Run(d, chain + [sale])
    ensures Holds(d, Replay(chain + [sale]), buyer, id, properties)
    ensures BytesAt(Replay(chain + [sale]), PropertiesKey(seller, id)) == None
  {
    var w := Replay(chain);
    assert chain[..|chain|] == chain;
    HistoryIsSound(d, chain);
    TransfersExactlyWhen(d, w, txId, seller, id, buyer, price);
    sale := Tx(txId, Call(seller, TransferAsset(id, buyer, Some(price))), |chain|, {seller, buyer},
               TransferSets(d, w, txId, seller, id, buyer, Some(price)).value);
    SaleAcceptedExactlyFromBoth(d, chain, sale);
    RunGrows(d, chain, sale);
    AcceptedIsAtomic(d, chain, sale);
    StepFollows(d, w, sale, |chain|);
    assert (chain + [sale])[..|chain|] == chain;
    SaleMoves(d, w, Replay(chain + [sale]), seller, buyer, id, properties, price, txId);
  }

  /** From any history in which an organization owns an asset and holds its properties, an
      ask, a bid of any other organization and a transfer sell it. */
  lemma {:induction false} OwnerCanSell(d: Hashing, chain: Chain, seller: Org, buyer: Org, id: string,
                                        properties: string, price: string, first: string, second: string,
                                        third: string) returns (ask: SaleTx, bid: SaleTx, sale: SaleTx)
    requires Run(d, chain) && Holds(d, Replay(chain), seller, id, properties) && seller != buyer
    requires d.agreement(price).Some? && id != "" && ValidAttribute(id) && ValidAttribute(third)
    requires !Used(chain, first) && !Used(chain, second) && !Used(chain, third)
    requires first != second && second != third && first != third
    ensures ask.op == Call(seller, AgreeToSell(id, Some(price)))
    ensures bid.op == Call(buyer, AgreeToBuy(id, Some(properties), Some(price)))
    ensures sale.op == Call(seller, TransferAsset(id, buyer, Some(price)))
    ensures var sold := chain + [ask] + [bid] + [sale];
            && Run(d, sold) && Owner(Replay(sold), id) == Some(buyer) && Provenant(d, Replay(sold), id)
            && BytesAt(Replay(sold), PropertiesKey(seller, id)) == None
  {
    ask, bid := ReadyToSell(d, chain, seller, buyer, id, properties, price, first, second);
    UsedGrows(chain, ask, third);
    UsedGrows(chain + [ask], bid, third);
    sale := SaleGoesThrough(d, chain + [ask] + [bid], seller, buyer, id, properties, price, third);
    HashesOfHeld(d, Replay(chain + [ask] + [bid] + [sale]), buyer, id, properties);
  }

  lemma {:induction false} HashesOfHeld(d: Hashing, w: Ledger, owner: Org, id: string, properties: string)
    requires Holds(d, w, owner, id, properties)
    ensures Provenant(d, w, id) && Owner(w, id) == Some(owner)
  {
  }

  /** A whole life on a new ledger: created by one organization, sold to another. */
  lemma {:induction false} NewAssetCanBeSold(d: Hashing, seller: Org, buyer: Org, properties: string, price: string)
    returns (chain: Chain)
    requires seller != buyer && d.agreement(price).Some?
    requires d.hash(properties) != "" && ValidAttribute(d.hash(properties))
    ensures Run(d, chain) && |chain| == 4
    ensures chain[0].op == Call(seller, CreateAsset(Some(properties), ""))
    ensures chain[1].op == Call(seller, AgreeToSell(d.hash(properties), Some(price)))
    ensures chain[2].op == Call(buyer, AgreeToBuy(d.hash(properties), Some(properties), Some(price)))
    ensures chain[3].op == Call(seller, TransferAsset(d.hash(properties), buyer, Some(price)))
    ensures Owner(Replay(chain), d.hash(properties)) == Some(buyer) && Provenant(d, Replay(chain), d.hash(properties))
  {
    var create := FirstCreate(d, seller, properties);
    assert "t1" != "t2" && "t2" != "t3" && "t1" != "t3" && "t0" !in {"t1", "t2", "t3"} by {
      assert "t0"[1] == '0' && "t1"[1] == '1' && "t2"[1] == '2' && "t3"[1] == '3';
    }
    var held := HoldsProperties(d, [create], d.hash(properties));
    assert held == properties;
    var ask, bid, sale := OwnerCanSell(d, [create], seller, buyer, d.hash(properties), properties, price,
                                       "t1", "t2", "t3");
    chain := [create] + [ask] + [bid] + [sale];
  }
}
