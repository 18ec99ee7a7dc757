/** The secured-agreement contract: an asset with a public owner, private properties and
    private price agreements, sold between two organizations. */
module SecuredAgreement {
  import opened Wrappers
  import opened Fabric
  import opened CompositeKeys

  const FOR_SALE := "S"
  const BID := "B"
  const SALE_RECEIPT := "SR"
  const BUY_RECEIPT := "BR"

  datatype Asset = Asset(id: string, ownerOrg: Org, publicDescription: string)

  /** Public keys hold assets, private collections hold bytes. */
  datatype Datum = Public(asset: Asset) | Private(bytes: string)

  /** A receipt's fields are unexported, so its JSON names neither price nor time. */
  const RECEIPT := Private("{}")

  datatype Fault = MissingTransient | WrongPeer | NoAsset | NotAnAsset | NotOwner | BadPrice
    | NoProperties | PropertiesDiffer | NoAsk | NoBid | PriceDiffers | Altered | EmptyKey | BadKey

  /** What price bytes hold. */
  datatype Agreement = Agreement(id: string, price: int, tradeId: string)

  /** The hash, in the form it takes as an asset id, and the reading of price bytes. */
  datatype Digest = Digest(hash: string -> string, agreement: string -> Option<Agreement>)

  ghost predicate CollisionFree(d: Digest) {
    && (forall a: string, b: string :: d.hash(a) == d.hash(b) ==> a == b)
  }

  type Hashing = d: Digest | CollisionFree(d) witness Digest(s => s, s => None)

  datatype Op =
    | CreateAsset(properties: Option<string>, description: string)
    | ChangePublicDescription(id: string, description: string)
    | AgreeToSell(id: string, price: Option<string>)
    | AgreeToBuy(id: string, properties: Option<string>, price: Option<string>)
    | TransferAsset(id: string, buyer: Org, price: Option<string>)

  /** A call together with the client organization that signed it. */
  datatype Call = Call(client: Org, op: Op)

  type Ledger = World<Datum>
  type Sets = RWSet<Datum>
  type Chain = seq<Tx<Call, Datum>>

  function AssetKey(id: string): Loc { Loc(Channel, Plain(id)) }

  function PropertiesKey(org: Org, id: string): Loc { Loc(Implicit(org), Plain(id)) }

  function AskKey(org: Org, id: string): Loc { Loc(Implicit(org), Composite(FOR_SALE, [id])) }

  function BidKey(org: Org, id: string): Loc { Loc(Implicit(org), Composite(BID, [id])) }

  function BuyReceiptKey(org: Org, id: string, txId: string): Loc {
    Loc(Implicit(org), Composite(BUY_RECEIPT, [id, txId]))
  }

  function SaleReceiptKey(org: Org, id: string, txId: string): Loc {
    Loc(Implicit(org), Composite(SALE_RECEIPT, [txId, id]))
  }

  function AssetAt(w: Ledger, id: string): Result<Asset, Fault> {
    match ValueAt<Datum>(w, AssetKey(id))
    case None => Err(NoAsset)
    case Some(Public(asset)) => Ok(asset)
    case Some(_) => Err(NotAnAsset)
  }

  /** The hash of a private value, which every organization can read. */
  function HashAt(d: Hashing, w: Ledger, l: Loc): Option<string> {
    match ValueAt<Datum>(w, l)
    case Some(Private(bytes)) => Some(d.hash(bytes))
    case _ => None
  }

  method ReadAsset(stub: Stub<Datum>, id: string) returns (r: Result<Asset, Fault>)
    modifies stub
    ensures r == AssetAt(stub.world, id)
    ensures stub.rw == old(stub.rw).(seen := old(stub.rw.seen)[AssetKey(id) := VersionAt(stub.world, AssetKey(id))])
  {
    var value := stub.GetState(AssetKey(id));
    match value
    case None => return Err(NoAsset);
    case Some(Public(asset)) => return Ok(asset);
    case Some(_) => return Err(NotAnAsset);
  }

  method GetPrivateDataHash(d: Hashing, stub: Stub<Datum>, l: Loc) returns (hash: Option<string>)
    modifies stub
    ensures hash == HashAt(d, stub.world, l)
    ensures stub.rw == old(stub.rw).(seen := old(stub.rw.seen)[l := VersionAt(stub.world, l)])
  {
    var value := stub.GetState(l);
    match value
    case Some(Private(bytes)) => return Some(d.hash(bytes));
    case _ => return None;
  }

  // ---- CreateAsset ----

  function CreateSets(d: Hashing, client: Org, peer: Org, properties: Option<string>, description: string)
    : Result<Sets, Fault>
  {
    if properties.None? then Err(MissingTransient)
    else if client != peer then Err(WrongPeer)
    else
      var id := d.hash(properties.value);
      if id == "" then Err(EmptyKey)
      else Ok(RWSet(map[], map[],
               map[AssetKey(id) := Some(Public(Asset(id, client, description))),
                   PropertiesKey(client, id) := Some(Private(properties.value))],
               map[AssetKey(id) := {client}]))
  }

  method CreateAsset(d: Hashing, stub: Stub<Datum>, properties: Option<string>, description: string)
    returns (r: Result<string, Fault>)
    requires stub.rw == Nothing()
    modifies stub
    ensures match CreateSets(d, stub.client, stub.peer, properties, description)
            case Err(e) => r == Err(e)
            case Ok(rw) => r == Ok(d.hash(properties.value)) && stub.rw == rw
  {
    if properties.None? {
      return Err(MissingTransient);
    }
    var assetId := d.hash(properties.value);
    if stub.client != stub.peer {
      return Err(WrongPeer);
    }
    if assetId == "" {
      return Err(EmptyKey);
    }
    stub.PutState(AssetKey(assetId), Public(Asset(assetId, stub.client, description)));
    stub.SetStateValidationParameter(AssetKey(assetId), {stub.client});
    stub.PutState(PropertiesKey(stub.client, assetId), Private(properties.value));
    r := Ok(assetId);
  }

  // ---- ChangePublicDescription ----

  function DescribeSets(w: Ledger, client: Org, id: string, description: string): Result<Sets, Fault> {
    match AssetAt(w, id)
    case Err(e) => Err(e)
    case Ok(asset) =>
      if client != asset.ownerOrg then Err(NotOwner)
      else if id == "" then Err(EmptyKey)
      else Ok(RWSet(map[AssetKey(id) := VersionAt(w, AssetKey(id))], map[],
                    map[AssetKey(id) := Some(Public(asset.(publicDescription := description)))], map[]))
  }

  method ChangePublicDescription(stub: Stub<Datum>, id: string, description: string) returns (r: Result<(), Fault>)
    requires stub.rw == Nothing()
    modifies stub
    ensures match DescribeSets(stub.world, stub.client, id, description)
            case Err(e) => r == Err(e)
            case Ok(rw) => r == Ok(()) && stub.rw == rw
  {
    var read := ReadAsset(stub, id);
    if read.Err? {
      return Err(read.error);
    }
    var asset := read.value;
    if stub.client != asset.ownerOrg {
      return Err(NotOwner);
    }
    if id == "" {
      return Err(EmptyKey);
    }
    asset := asset.(publicDescription := description);
    stub.PutState(AssetKey(id), Public(asset));
    r := Ok(());
  }

  // ---- AgreeToSell and AgreeToBuy ----

  /** Records an ask or a bid in the caller's own collection, as the bytes it was given. */
  method AgreeToPrice(stub: Stub<Datum>, priceType: string, id: string, price: Option<string>)
    returns (r: Result<(), Fault>)
    modifies stub
    ensures match PriceFault(priceType, id, price)
            case Some(e) => r == Err(e)
            case None => r == Ok(()) && stub.rw == old(stub.rw).(writes := old(stub.rw.writes)
              [Loc(Implicit(stub.client), Composite(priceType, [id])) := Some(Private(price.value))])
  {
    if price.None? {
      return Err(MissingTransient);
    }
    assert [priceType] + [id] == [priceType, id];
    var key := CreateCompositeKey(priceType, [id]);
    if key.None? {
      return Err(BadKey);
    }
    stub.PutState(Loc(Implicit(stub.client), Composite(priceType, [id])), Private(price.value));
    r := Ok(());
  }

  function PriceFault(priceType: string, id: string, price: Option<string>): Option<Fault> {
    if price.None? then Some(MissingTransient)
    else if !ValidAttributes([priceType, id]) then Some(BadKey)
    else None
  }

  function SellSets(w: Ledger, client: Org, peer: Org, id: string, price: Option<string>): Result<Sets, Fault> {
    match AssetAt(w, id)
    case Err(e) => Err(e)
    case Ok(asset) =>
      if client != peer then Err(WrongPeer)
      else if client != asset.ownerOrg then Err(NotOwner)
      else if PriceFault(FOR_SALE, id, price).Some? then Err(PriceFault(FOR_SALE, id, price).value)
      else Ok(RWSet(map[AssetKey(id) := VersionAt(w, AssetKey(id))], map[],
                    map[AskKey(client, id) := Some(Private(price.value))], map[]))
  }

  method AgreeToSell(stub: Stub<Datum>, id: string, price: Option<string>) returns (r: Result<(), Fault>)
    requires stub.rw == Nothing()
    modifies stub
    ensures match SellSets(stub.world, stub.client, stub.peer, id, price)
            case Err(e) => r == Err(e)
            case Ok(rw) => r == Ok(()) && stub.rw == rw
  {
    var read := ReadAsset(stub, id);
    if read.Err? {
      return Err(read.error);
    }
    if stub.client != stub.peer {
      return Err(WrongPeer);
    }
    if stub.client != read.value.ownerOrg {
      return Err(NotOwner);
    }
    r := AgreeToPrice(stub, FOR_SALE, id, price);
  }

  function BuySets(client: Org, peer: Org, id: string, properties: Option<string>, price: Option<string>)
    : Result<Sets, Fault>
  {
    if client != peer then Err(WrongPeer)
    else if properties.None? then Err(MissingTransient)
    else if id == "" then Err(EmptyKey)
    else if PriceFault(BID, id, price).Some? then Err(PriceFault(BID, id, price).value)
    else Ok(RWSet(map[], map[],
                  map[PropertiesKey(client, id) := Some(Private(properties.value)),
                      BidKey(client, id) := Some(Private(price.value))], map[]))
  }

  method AgreeToBuy(stub: Stub<Datum>, id: string, properties: Option<string>, price: Option<string>)
    returns (r: Result<(), Fault>)
    requires stub.rw == Nothing()
    modifies stub
    ensures match BuySets(stub.client, stub.peer, id, properties, price)
            case Err(e) => r == Err(e)
            case Ok(rw) => r == Ok(()) && stub.rw == rw
  {
    if stub.client != stub.peer {
      return Err(WrongPeer);
    }
    if properties.None? {
      return Err(MissingTransient);
    }
    if id == "" {
      return Err(EmptyKey);
    }
    stub.PutState(PropertiesKey(stub.client, id), Private(properties.value));
    r := AgreeToPrice(stub, BID, id, price);
  }

  // ---- The agreements of an organization ----

  function AgreementsOf(org: Org, agreeType: string): Query {
    PartialKey(Implicit(org), agreeType, [])
  }

  /** What a stored agreement reads as. */
  function AgreementAt(d: Hashing, w: Ledger, l: Loc): Option<Agreement> {
    match ValueAt<Datum>(w, l)
    case Some(Private(bytes)) => d.agreement(bytes)
    case _ => None
  }

  /** The keys the answer follows are returned beside it. */
  method QueryAgreementsByType(d: Hashing, stub: Stub<Datum>, agreeType: string)
    returns (r: Result<seq<Agreement>, Fault>, ghost rows: seq<Loc>)
    modifies stub
    ensures stub.client != stub.peer ==> r == Err(WrongPeer)
    ensures stub.client == stub.peer && !ValidAttribute(agreeType) ==> r == Err(BadKey)
    ensures stub.client == stub.peer && ValidAttribute(agreeType) ==>
      && Lists(rows, Scan(stub.world, AgreementsOf(stub.client, agreeType)).Keys)
      && (r.Err? <==> exists l :: l in rows && AgreementAt(d, stub.world, l).None?)
      && (r.Ok? ==> |r.value| == |rows|)
      && (r.Ok? ==> forall i :: 0 <= i < |rows| ==> AgreementAt(d, stub.world, rows[i]) == Some(r.value[i]))
  {
    rows := [];
    if stub.client != stub.peer {
      return Err(WrongPeer), rows;
    }
    var prefix := CreateCompositeKey(agreeType, []);
    assert [agreeType] + [] == [agreeType];
    if prefix.None? {
      return Err(BadKey), rows;
    }
    var found := stub.GetStateByRange(AgreementsOf(stub.client, agreeType));
    rows := found;
    var agreements: seq<Agreement> := [];
    for i := 0 to |found|
      invariant |agreements| == i
      invariant forall k :: 0 <= k < i ==> AgreementAt(d, stub.world, rows[k]) == Some(agreements[k])
    {
      var agreement := AgreementAt(d, stub.world, found[i]);
      assert found[i] in rows;
      if agreement.None? {
        return Err(BadPrice), rows;
      }
      agreements := agreements + [agreement.value];
    }
    r := Ok(agreements);
  }

  // ---- VerifyAssetProperties ----

  function Verdict(d: Hashing, w: Ledger, id: string, properties: Option<string>): Result<bool, Fault> {
    if properties.None? then Err(MissingTransient)
    else
      match AssetAt(w, id)
      case Err(e) => Err(e)
      case Ok(asset) =>
        match HashAt(d, w, PropertiesKey(asset.ownerOrg, id))
        case None => Err(NoProperties)
        case Some(hash) =>
          if hash != d.hash(properties.value) then Err(PropertiesDiffer)
          else if hash != id then Err(Altered)
          else Ok(true)
  }

  method VerifyAssetProperties(d: Hashing, stub: Stub<Datum>, id: string, properties: Option<string>)
    returns (r: Result<bool, Fault>)
    modifies stub
    ensures r == Verdict(d, stub.world, id, properties)
  {
    if properties.None? {
      return Err(MissingTransient);
    }
    var read := ReadAsset(stub, id);
    if read.Err? {
      return Err(read.error);
    }
    var onChain := GetPrivateDataHash(d, stub, PropertiesKey(read.value.ownerOrg, id));
    if onChain.None? {
      return Err(NoProperties);
    }
    var calculated := d.hash(properties.value);
    if onChain.value != calculated {
      return Err(PropertiesDiffer);
    }
    if onChain.value != id {
      return Err(Altered);
    }
    r := Ok(true);
  }

  // ---- TransferAsset ----

  /** The first of the transfer conditions that fails, if one does. */
  function Objection(d: Hashing, w: Ledger, asset: Asset, client: Org, buyer: Org, price: string): Option<Fault> {
    var mine, theirs := HashAt(d, w, PropertiesKey(client, asset.id)), HashAt(d, w, PropertiesKey(buyer, asset.id));
    var ask, bid := HashAt(d, w, AskKey(client, asset.id)), HashAt(d, w, BidKey(buyer, asset.id));
    if client != asset.ownerOrg then Some(NotOwner)
    else if mine.None? || theirs.None? then Some(NoProperties)
    else if mine != theirs then Some(PropertiesDiffer)
    else if !ValidAttribute(asset.id) then Some(BadKey)
    else if ask.None? then Some(NoAsk)
    else if bid.None? then Some(NoBid)
    else if Some(d.hash(price)) != ask || Some(d.hash(price)) != bid then Some(PriceDiffers)
    else None
  }

  method VerifyTransferConditions(d: Hashing, stub: Stub<Datum>, asset: Asset, buyer: Org, price: string)
    returns (objection: Option<Fault>)
    modifies stub
    ensures objection == Objection(d, stub.world, asset, stub.client, buyer, price)
    ensures objection.None? ==>
      stub.rw == old(stub.rw).(seen := old(stub.rw.seen) + Observations(stub.world, asset.id, stub.client, buyer))
  {
    if stub.client != asset.ownerOrg {
      return Some(NotOwner);
    }
    var mine := GetPrivateDataHash(d, stub, PropertiesKey(stub.client, asset.id));
    if mine.None? {
      return Some(NoProperties);
    }
    var theirs := GetPrivateDataHash(d, stub, PropertiesKey(buyer, asset.id));
    if theirs.None? {
      return Some(NoProperties);
    }
    if mine != theirs {
      return Some(PropertiesDiffer);
    }
    if !ValidAttribute(asset.id) {
      return Some(BadKey);
    }
    var ask := GetPrivateDataHash(d, stub, AskKey(stub.client, asset.id));
    if ask.None? {
      return Some(NoAsk);
    }
    var bid := GetPrivateDataHash(d, stub, BidKey(buyer, asset.id));
    if bid.None? {
      return Some(NoBid);
    }
    var calculated := d.hash(price);
    if calculated != ask.value {
      return Some(PriceDiffers);
    }
    if calculated != bid.value {
      return Some(PriceDiffers);
    }
    ObservesFour(old(stub.rw.seen), stub.world, asset.id, stub.client, buyer);
    objection := None;
  }

  lemma {:induction false} ObservesFour(seen: map<Loc, Option<nat>>, w: Ledger, id: string, client: Org, buyer: Org)
    ensures var a, b := PropertiesKey(client, id), PropertiesKey(buyer, id);
            var c, d := AskKey(client, id), BidKey(buyer, id);
            seen[a := VersionAt(w, a)][b := VersionAt(w, b)][c := VersionAt(w, c)][d := VersionAt(w, d)]
            == seen + Observations(w, id, client, buyer)
  {
  }

  function Observations(w: Ledger, id: string, client: Org, buyer: Org): map<Loc, Option<nat>> {
    map l | l in {PropertiesKey(client, id), PropertiesKey(buyer, id), AskKey(client, id), BidKey(buyer, id)}
      :: VersionAt(w, l)
  }

  function TransferWrites(asset: Asset, client: Org, buyer: Org, txId: string): map<Loc, Option<Datum>> {
    map[AssetKey(asset.id) := Some(Public(asset.(ownerOrg := buyer))),
        PropertiesKey(client, asset.id) := None,
        AskKey(client, asset.id) := None,
        BidKey(buyer, asset.id) := None,
        BuyReceiptKey(buyer, asset.id, txId) := Some(RECEIPT),
        SaleReceiptKey(client, asset.id, txId) := Some(RECEIPT)]
  }

  function TransferFault(asset: Asset, txId: string): Option<Fault> {
    if asset.id == "" then Some(EmptyKey)
    else if !ValidAttribute(txId) then Some(BadKey)
    else None
  }

  method TransferAssetState(stub: Stub<Datum>, asset: Asset, buyer: Org) returns (fault: Option<Fault>)
    requires stub.rw.writes == map[] && stub.rw.policies == map[]
    modifies stub
    ensures fault == TransferFault(asset, stub.txId)
    ensures fault.None? ==>
      stub.rw == old(stub.rw).(writes := TransferWrites(asset, stub.client, buyer, stub.txId),
                               policies := map[AssetKey(asset.id) := {buyer}])
  {
    if asset.id == "" {
      return Some(EmptyKey);
    }
    stub.PutState(AssetKey(asset.id), Public(asset.(ownerOrg := buyer)));
    stub.SetStateValidationParameter(AssetKey(asset.id), {buyer});
    stub.DelState(PropertiesKey(stub.client, asset.id));
    stub.DelState(AskKey(stub.client, asset.id));
    stub.DelState(BidKey(buyer, asset.id));
    if !ValidAttribute(stub.txId) {
      return Some(BadKey);
    }
    stub.PutState(BuyReceiptKey(buyer, asset.id, stub.txId), RECEIPT);
    stub.PutState(SaleReceiptKey(stub.client, asset.id, stub.txId), RECEIPT);
    fault := None;
  }

  function TransferSets(d: Hashing, w: Ledger, txId: string, client: Org, id: string, buyer: Org,
                        price: Option<string>): Result<Sets, Fault> {
    if price.None? then Err(MissingTransient)
    else if d.agreement(price.value).None? then Err(BadPrice)
    else
      match AssetAt(w, id)
      case Err(e) => Err(e)
      case Ok(asset) =>
        match Objection(d, w, asset, client, buyer, price.value)
        case Some(e) => Err(e)
        case None =>
          if TransferFault(asset, txId).Some? then Err(TransferFault(asset, txId).value)
          else Ok(RWSet(map[AssetKey(id) := VersionAt(w, AssetKey(id))] + Observations(w, asset.id, client, buyer),
                   map[],
                   TransferWrites(asset, client, buyer, txId),
                   map[AssetKey(asset.id) := {buyer}]))
  }

  method TransferAsset(d: Hashing, stub: Stub<Datum>, id: string, buyer: Org, price: Option<string>)
    returns (r: Result<(), Fault>)
    requires stub.rw == Nothing()
    modifies stub
    ensures match TransferSets(d, stub.world, stub.txId, stub.client, id, buyer, price)
            case Err(e) => r == Err(e)
            case Ok(rw) => r == Ok(()) && stub.rw == rw
  {
    if price.None? {
      return Err(MissingTransient);
    }
    var agreed := d.agreement(price.value);
    if agreed.None? {
      return Err(BadPrice);
    }
    var read := ReadAsset(stub, id);
    if read.Err? {
      return Err(read.error);
    }
    var objection := VerifyTransferConditions(d, stub, read.value, buyer, price.value);
    if objection.Some? {
      return Err(objection.value);
    }
    var fault := TransferAssetState(stub, read.value, buyer);
    if fault.Some? {
      return Err(fault.value);
    }
    r := Ok(());
  }

  /** What a peer of organization `peer` records for a call. */
  function Simulate(d: Hashing, call: Call, peer: Org, txId: string, w: Ledger): Result<Sets, Fault> {
    match call.op
    case CreateAsset(properties, description) => CreateSets(d, call.client, peer, properties, description)
    case ChangePublicDescription(id, description) => DescribeSets(w, call.client, id, description)
    case AgreeToSell(id, price) => SellSets(w, call.client, peer, id, price)
    case AgreeToBuy(id, properties, price) => BuySets(call.client, peer, id, properties, price)
    case TransferAsset(id, buyer, price) => TransferSets(d, w, txId, call.client, id, buyer, price)
  }

  /** Every endorsing organization ran the call, and all recorded the same. */
  ghost predicate EndorsedAt(d: Hashing, chain: Chain, tx: Tx<Call, Datum>) {
    && tx.height <= |chain| && tx.endorsers != {}
    && forall peer :: peer in tx.endorsers ==>
         Simulate(d, tx.op, peer, tx.id, WorldAt(chain, tx.height)) == Ok(tx.rw)
  }

  ghost predicate Run(d: Hashing, chain: Chain) {
    && Committed(chain)
    && forall j {:trigger EndorsedAt(d, chain, chain[j])} :: 0 <= j < |chain| ==> EndorsedAt(d, chain, chain[j])
  }
}
