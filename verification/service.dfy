/** The backend's transaction assembly (`AlgorandService`). Every network
    round trip is an argument: `net` is what the node answered to the
    suggested-parameters request (or the error it raised), and account
    lookups, submission and confirmation are functions supplied by the
    caller. A built transaction is the unsigned transaction record; its
    msgpack/base64 encoding, its id and the group-id hash are not modelled. */
module Service {
  import opened Wrappers
  import opened Bytes
  import opened Algorand
  import opened JsText

  /** Suggested parameters as the node returns them; only carried along. */
  datatype Params = Params(fee: nat, firstValid: nat, lastValid: nat, genesisId: string)

  /** An unsigned transaction, the parameters it was built on, and the group
      id `assignGroupID` gave it, if any. */
  datatype Built = Built(txn: Txn<string>, params: Params, group: Option<Bytes>)

  /** Process configuration read once at start-up. */
  datatype Config = Config(appId: int, platformWallet: string)

  const PrefixAccount: string := "Failed to get account info: "
  const PrefixMint: string := "Failed to create mint transaction: "
  const PrefixAsset: string := "Failed to create NFT asset: "
  const PrefixList: string := "Failed to create list transaction: "
  const PrefixBuy: string := "Failed to create buy transaction: "
  const PrefixSubmit: string := "Failed to submit transaction: "
  const PrefixConfirm: string := "Transaction not confirmed: "
  const PrefixAppState: string := "Failed to get application state: "
  const PrefixOptIn: string := "Failed to create opt-in transaction: "

  const MissingCreator: string := "Creator address must be provided to create an NFT asset."
  /** Stand-ins for the SDK's refusals of an integer argument or a payment
      amount outside the unsigned 64-bit range. */
  const NotUint64: string := "Input is not a 64-bit unsigned integer"
  const BadAmount: string := "Amount must be a positive number and smaller than 2^64-1"

  /** `catch (error) { throw new Error(prefix + error.message) }` */
  function Rethrow<T>(prefix: string, r: Result<T, string>): Result<T, string> {
    match r
    case Ok(v) => Ok(v)
    case Err(e) => Err(prefix + e)
  }

  /** `parseInt(process.env.APP_ID) || 0`: an unset or unparsable variable
      gives application id 0. */
  function AppIdFromEnv(env: Option<string>): (id: int)
    ensures env.None? ==> id == 0
    ensures env.Some? && ParseInt(env.value).None? ==> id == 0
    ensures env.Some? && ParseInt(env.value).Some? ==> id == ParseInt(env.value).value
  {
    match env
    case None => 0
    case Some(s) =>
      match ParseInt(s)
      case None => 0
      case Some(v) => if v != 0 then v else 0
  }

  /** Writing an id in decimal into the environment configures exactly that id. */
  lemma AppIdOfDecimal(n: nat)
    ensures AppIdFromEnv(Some(Decimal(n))) == n
  {
    ParseIntDecimal(n);
  }

  // ---------------------------------------------------------------------
  // Accounts

  datatype Asset = Asset(assetId: int, amount: int)
  /** A TEAL value as the node reports it: `kind` 1 is bytes, anything else a uint. */
  datatype TealValue = TealValue(kind: int, bytes: Bytes, uint: nat)
  /** A local-state entry; the key is the base64-decoded key bytes. */
  datatype KeyValue = KeyValue(key: Bytes, value: TealValue)
  datatype AppLocalState = AppLocalState(id: int, keyValue: Option<seq<KeyValue>>)
  /** The node's account record; the list fields may be absent. */
  datatype AccountRecord = AccountRecord(address: string, amount: int, assets: Option<seq<Asset>>,
                                         appsLocalState: Option<seq<AppLocalState>>)
  datatype AccountInfo = AccountInfo(address: string, amount: int, assets: seq<Asset>,
                                     appsLocalState: seq<AppLocalState>)

  /** `getAccountInfo`: the record with absent lists read as empty. */
  function GetAccountInfo(address: string, lookup: string -> Result<AccountRecord, string>): (r: Result<AccountInfo, string>)
    ensures r.Ok? <==> lookup(address).Ok?
    ensures r.Err? ==> r.error == PrefixAccount + lookup(address).error
    ensures r.Ok? ==>
      && r.value.address == lookup(address).value.address
      && r.value.amount == lookup(address).value.amount
      && (lookup(address).value.assets.None? ==> r.value.assets == [])
      && (lookup(address).value.assets.Some? ==> r.value.assets == lookup(address).value.assets.value)
      && (lookup(address).value.appsLocalState.None? ==> r.value.appsLocalState == [])
      && (lookup(address).value.appsLocalState.Some? ==>
            r.value.appsLocalState == lookup(address).value.appsLocalState.value)
  {
    match lookup(address)
    case Err(e) => Err(PrefixAccount + e)
    case Ok(a) => Ok(AccountInfo(a.address, a.amount, a.assets.GetOr([]), a.appsLocalState.GetOr([])))
  }

  /** `apps.find(app => app.id === appId)`: the first entry with that id. */
  function FindApp(apps: seq<AppLocalState>, appId: int): (r: Option<AppLocalState>)
    ensures r.None? <==> forall i :: 0 <= i < |apps| ==> apps[i].id != appId
    ensures r.Some? ==> exists i :: 0 <= i < |apps| && apps[i] == r.value && r.value.id == appId
                                    && forall j :: 0 <= j < i ==> apps[j].id != appId
  {
    if |apps| == 0 then None
    else if apps[0].id == appId then
      Some(apps[0])
    else
      var r := FindApp(apps[1..], appId);
      if r.Some? then
        var i :| 0 <= i < |apps[1..]| && apps[1..][i] == r.value && r.value.id == appId
                 && forall j :: 0 <= j < i ==> apps[1..][j].id != appId;
        assert apps[i + 1] == r.value;
        assert forall j :: 0 <= j < i + 1 ==> apps[j].id != appId by {
          forall j | 0 <= j < i + 1 ensures apps[j].id != appId {
            if j > 0 { assert apps[j] == apps[1..][j - 1]; }
          }
        }
        r
      else
        assert forall i :: 0 <= i < |apps| ==> apps[i].id != appId by {
          forall i | 0 <= i < |apps| ensures apps[i].id != appId {
            if i > 0 { assert apps[i] == apps[1..][i - 1]; }
          }
        }
        r
  }

  datatype StateValue = Text(text: string) | Number(n: nat)

  /** A byte value is decoded as text, every other value is its uint. */
  function DecodeValue(v: TealValue, decode: Bytes -> string): StateValue {
    if v.kind == 1 then Text(decode(v.bytes)) else Number(v.uint)
  }

  /** The `forEach` over the key-value list: each entry assigns
      `state[key]`, so a later duplicate key overwrites an earlier one. */
  function DecodeState(kvs: seq<KeyValue>, decode: Bytes -> string): (m: map<string, StateValue>)
    ensures m.Keys == set i | 0 <= i < |kvs| :: decode(kvs[i].key)
  {
    if |kvs| == 0 then map[]
    else
      var init := kvs[..|kvs| - 1];
      var last := kvs[|kvs| - 1];
      var m := DecodeState(init, decode);
      assert forall i :: 0 <= i < |init| ==> init[i] == kvs[i];
      m[decode(last.key) := DecodeValue(last.value, decode)]
  }

  /** The value stored under an entry's key is that entry's own value when
      no later entry carries the same key. */
  lemma {:induction false} LastWriteWins(kvs: seq<KeyValue>, decode: Bytes -> string, i: int)
    requires 0 <= i < |kvs|
    requires forall j :: i < j < |kvs| ==> decode(kvs[j].key) != decode(kvs[i].key)
    ensures decode(kvs[i].key) in DecodeState(kvs, decode)
    ensures DecodeState(kvs, decode)[decode(kvs[i].key)] == DecodeValue(kvs[i].value, decode)
  {
    if i < |kvs| - 1 {
      var init := kvs[..|kvs| - 1];
      assert init[i] == kvs[i];
      LastWriteWins(init, decode, i);
    }
  }

  /** `getApplicationState`: `None` (the JSON `null`) when the account has no
      local state for the application, otherwise its decoded key-value map. */
  function GetApplicationState(appId: int, address: string, lookup: string -> Result<AccountRecord, string>,
                               decode: Bytes -> string): (r: Result<Option<map<string, StateValue>>, string>)
    ensures r.Ok? <==> lookup(address).Ok?
    ensures r.Err? ==> r.error == PrefixAppState + lookup(address).error
    ensures r.Ok? ==>
      var apps := lookup(address).value.appsLocalState;
      (r.value.None? <==> apps.None? || forall i :: 0 <= i < |apps.value| ==> apps.value[i].id != appId)
    ensures r.Ok? && r.value.Some? ==>
      var app := FindApp(lookup(address).value.appsLocalState.value, appId).value;
      && (app.keyValue.None? ==> r.value.value == map[])
      && (app.keyValue.Some? ==>
            r.value.value.Keys == set i | 0 <= i < |app.keyValue.value| :: decode(app.keyValue.value[i].key))
    ensures r.Ok? && r.value.Some? ==>
      var app := FindApp(lookup(address).value.appsLocalState.value, appId).value;
      app.keyValue.Some? ==> r.value.value == DecodeState(app.keyValue.value, decode)
  {
    match lookup(address)
    case Err(e) => Err(PrefixAppState + e)
    case Ok(a) =>
      if a.appsLocalState.None? then Ok(None)
      else
        match FindApp(a.appsLocalState.value, appId)
        case None => Ok(None)
        case Some(app) =>
          match app.keyValue
          case None => Ok(Some(map[]))
          case Some(kvs) => Ok(Some(DecodeState(kvs, decode)))
  }

  // ---------------------------------------------------------------------
  // Mint, asset creation, listing, opt-in

  datatype MintParams = MintParams(creator: string, name: string, kind: string, purchasable: bool,
                                   price: Option<int>)

  /** The operation names the backend sends as the first argument. */
  const MintOp: Bytes := Utf8("mint_nft")
  const ListOp: Bytes := Utf8("list_nft")
  const BuyOp: Bytes := Utf8("buy_nft")

  /** `algosdk.encodeUint64`: an application argument holding a uint64 as
      eight big-endian bytes, which the contract's `Btoi` reads back. */
  function Uint64Arg(n: int): (r: Bytes)
    requires 0 <= n <= MaxUint64
    ensures |r| == 8 && Btoi(r) == Some(n)
  {
    BtoiEncodeUint64(n);
    EncodeUint64(n).value
  }

  /** `["mint_nft", name, type, encodeUint64(purchasable ? 1 : 0),
      encodeUint64(price || 0)]`, or the refusal of the price. */
  function MintArgs(name: string, kind: string, purchasable: bool, price: Option<int>): (r: Result<seq<Bytes>, string>)
    ensures r.Ok? <==> 0 <= OrInt(price, 0) <= MaxUint64
    ensures r.Err? ==> r.error == NotUint64
    ensures r.Ok? ==>
      && |r.value| == 5
      && r.value[0] == MintOp && r.value[1] == Utf8(name) && r.value[2] == Utf8(kind)
      && |r.value[3]| == 8 && Btoi(r.value[3]) == Some(if purchasable then 1 else 0)
      && |r.value[4]| == 8 && Btoi(r.value[4]) == Some(OrInt(price, 0))
  {
    var flag := if purchasable then 1 else 0;
    var amount := OrInt(price, 0);
    if !(0 <= amount <= MaxUint64) then Err(NotUint64)
    else
      Ok([MintOp, Utf8(name), Utf8(kind), Uint64Arg(flag), Uint64Arg(amount)])
  }

  /** `createMintTransaction`: a no-op call of the application from the creator. */
  function CreateMintTransaction(cfg: Config, p: MintParams, net: Result<Params, string>): (r: Result<Built, string>)
    ensures r.Ok? <==> net.Ok? && 0 <= OrInt(p.price, 0) <= MaxUint64
    ensures net.Err? ==> r == Err(PrefixMint + net.error)
    ensures net.Ok? && r.Err? ==> r.error == PrefixMint + NotUint64
    ensures r.Ok? ==>
      && r.value.params == net.value && r.value.group.None?
      && r.value.txn.AppCall? && r.value.txn.sender == p.creator && r.value.txn.appId == cfg.appId
      && r.value.txn.onComplete == NoOp && r.value.txn.accounts == []
      && r.value.txn.args == MintArgs(p.name, p.kind, p.purchasable, p.price).value
  {
    var sp :- Rethrow(PrefixMint, net);
    var args :- Rethrow(PrefixMint, MintArgs(p.name, p.kind, p.purchasable, p.price));
    Ok(Built(AppCall(p.creator, cfg.appId, NoOp, args, []), sp, None))
  }

  datatype AssetParams = AssetParams(creator: Option<string>, assetName: string, unitName: Option<string>,
                                     total: Option<int>, decimals: Option<int>, url: Option<string>,
                                     metadata: Option<string>)

  /** `createNFTAsset`: the creator check comes before the parameters are
      fetched; absent fields take the defaults total 1, decimals 0, unit
      "NFT", url "", no metadata hash. */
  function CreateNftAsset(p: AssetParams, net: Result<Params, string>): (r: Result<Built, string>)
    ensures !TruthyStr(p.creator) ==> r == Err(PrefixAsset + MissingCreator)
    ensures r.Ok? <==> TruthyStr(p.creator) && net.Ok?
    ensures TruthyStr(p.creator) && net.Err? ==> r == Err(PrefixAsset + net.error)
    ensures r.Ok? ==>
      var t := r.value.txn;
      && r.value.params == net.value && r.value.group.None?
      && t.AssetCreate? && t.sender == p.creator.value && t.manager == p.creator.value
      && !t.defaultFrozen && t.assetName == p.assetName
      && t.total == (if TruthyInt(p.total) then p.total.value else 1)
      && t.decimals == (if TruthyInt(p.decimals) then p.decimals.value else 0)
      && t.unitName == (if TruthyStr(p.unitName) then p.unitName.value else "NFT")
      && t.url == (if TruthyStr(p.url) then p.url.value else "")
      && (t.metadataHash.Some? <==> TruthyStr(p.metadata))
      && (t.metadataHash.Some? ==> t.metadataHash.value == Utf8(p.metadata.value))
  {
    if !TruthyStr(p.creator) then Err(PrefixAsset + MissingCreator)
    else
      var sp :- Rethrow(PrefixAsset, net);
      var creator := p.creator.value;
      var hash := if TruthyStr(p.metadata) then Some(Utf8(p.metadata.value)) else None;
      Ok(Built(AssetCreate(creator, OrInt(p.total, 1), OrInt(p.decimals, 0), p.assetName,
                           OrStr(p.unitName, "NFT"), OrStr(p.url, ""), hash, false, creator), sp, None))
  }

  /** `["list_nft", encodeUint64(price)]`. */
  function ListArgs(price: int): (r: Result<seq<Bytes>, string>)
    ensures r.Ok? <==> 0 <= price <= MaxUint64
    ensures r.Err? ==> r.error == NotUint64
    ensures r.Ok? ==> |r.value| == 2 && r.value[0] == ListOp
                      && |r.value[1]| == 8 && Btoi(r.value[1]) == Some(price)
  {
    if !(0 <= price <= MaxUint64) then Err(NotUint64)
    else
      Ok([ListOp, Uint64Arg(price)])
  }

  /** `createListTransaction`: a no-op call of the application from the seller. */
  function CreateListTransaction(cfg: Config, seller: string, price: int, net: Result<Params, string>): (r: Result<Built, string>)
    ensures r.Ok? <==> net.Ok? && 0 <= price <= MaxUint64
    ensures net.Err? ==> r == Err(PrefixList + net.error)
    ensures net.Ok? && r.Err? ==> r.error == PrefixList + NotUint64
    ensures r.Ok? ==>
      && r.value.params == net.value && r.value.group.None?
      && r.value.txn.AppCall? && r.value.txn.sender == seller && r.value.txn.appId == cfg.appId
      && r.value.txn.onComplete == NoOp && r.value.txn.accounts == []
      && r.value.txn.args == ListArgs(price).value
  {
    var sp :- Rethrow(PrefixList, net);
    var args :- Rethrow(PrefixList, ListArgs(price));
    Ok(Built(AppCall(seller, cfg.appId, NoOp, args, []), sp, None))
  }

  /** `createOptInTransaction`: an opt-in call with no arguments. */
  function CreateOptInTransaction(cfg: Config, address: string, net: Result<Params, string>): (r: Result<Built, string>)
    ensures r.Ok? <==> net.Ok?
    ensures r.Err? ==> r.error == PrefixOptIn + net.error
    ensures r.Ok? ==> r.value.txn.AppCall? && r.value.txn.sender == address && r.value.txn.appId == cfg.appId
                      && r.value.txn.onComplete == OptIn && r.value.txn.args == [] && r.value.txn.accounts == []
  {
    var sp :- Rethrow(PrefixOptIn, net);
    Ok(Built(AppCall(address, cfg.appId, OptIn, [], []), sp, None))
  }

  // ---------------------------------------------------------------------
  // Buy

  /** `feeAmount = Math.floor(price * platformFee / 10000)` and
      `sellerAmount = price - feeAmount`, computed exactly. JavaScript
      computes the product and the quotient in doubles, which agree with
      this exact split while the product is at most `DoubleExact`. */
  function BackendSplit(price: int, platformFee: int): (r: (int, int))
    ensures r.0 + r.1 == price
    ensures r.0 * 10000 <= price * platformFee < r.0 * 10000 + 10000
    ensures 0 <= price && 0 <= platformFee <= 10000 ==> 0 <= r.0 <= price && 0 <= r.1 <= price
  {
    var fee := (price * platformFee) / 10000;
    FeeAtMostPrice(price, platformFee);
    (fee, price - fee)
  }

  lemma FeeAtMostPrice(price: int, platformFee: int)
    ensures 0 <= price && 0 <= platformFee <= 10000 ==> 0 <= (price * platformFee) / 10000 <= price
  {
    if 0 <= price && 0 <= platformFee <= 10000 {
      assert price * platformFee <= price * 10000;
    }
  }

  /** The three transactions of a purchase, all sent by the buyer: the fee
      to the platform wallet, the rest to the seller, then the `buy_nft`
      call naming the seller as its foreign account. */
  function BuyGroup(cfg: Config, buyer: string, seller: string, fee: int, sellerAmount: int): (g: seq<Txn<string>>)
    ensures |g| == 3
    ensures forall i :: 0 <= i < 3 ==> g[i].sender == buyer
  {
    [Payment(buyer, cfg.platformWallet, fee),
     Payment(buyer, seller, sellerAmount),
     AppCall(buyer, cfg.appId, NoOp, [BuyOp], [seller])]
  }

  /** 2^53: every integer up to here is an exact double. */
  const DoubleExact: int := 0x20_0000_0000_0000

  /** `Number.MAX_SAFE_INTEGER`, 2^53 - 1. */
  const MaxSafeInteger: int := DoubleExact - 1

  /** A payment amount the SDK accepts when it is given as a JavaScript
      number: a non-negative safe integer (larger amounts must be bigints). */
  predicate ValidAmount(n: int) { 0 <= n <= MaxSafeInteger }

  datatype BuyBuilt = BuyBuilt(txns: seq<Built>, groupId: Bytes)

  /** `createBuyTransaction`: the split, the group of three in order, one
      group id on every member, reported from the first member. */
  function CreateBuyTransaction(cfg: Config, buyer: string, seller: string, price: int, platformFee: int,
                                net: Result<Params, string>, groupIdOf: seq<Txn<string>> -> Bytes): (r: Result<BuyBuilt, string>)
    ensures r.Ok? <==>
      net.Ok? && ValidAmount(BackendSplit(price, platformFee).0) && ValidAmount(BackendSplit(price, platformFee).1)
    ensures net.Err? ==> r == Err(PrefixBuy + net.error)
    ensures net.Ok? && r.Err? ==> r.error == PrefixBuy + BadAmount
    ensures r.Ok? ==>
      var (fee, rest) := BackendSplit(price, platformFee);
      && |r.value.txns| == 3
      && r.value.txns[0].txn == Payment(buyer, cfg.platformWallet, fee)
      && r.value.txns[1].txn == Payment(buyer, seller, rest)
      && r.value.txns[2].txn == AppCall(buyer, cfg.appId, NoOp, [BuyOp], [seller])
      && (forall i :: 0 <= i < 3 ==> r.value.txns[i].params == net.value)
      && (forall i :: 0 <= i < 3 ==> r.value.txns[i].group == r.value.txns[0].group)
      && r.value.txns[0].group == Some(r.value.groupId)
      && r.value.groupId == groupIdOf(BuyGroup(cfg, buyer, seller, fee, rest))
  {
    var sp :- Rethrow(PrefixBuy, net);
    var (fee, rest) := BackendSplit(price, platformFee);
    if !ValidAmount(fee) || !ValidAmount(rest) then Err(PrefixBuy + BadAmount)
    else
      var g := BuyGroup(cfg, buyer, seller, fee, rest);
      var gid := groupIdOf(g);
      Ok(BuyBuilt(seq(3, i requires 0 <= i < 3 => Built(g[i], sp, Some(gid))), gid))
  }

  // ---------------------------------------------------------------------
  // Submission

  datatype Submitted = Submitted(txId: string, confirmedRound: nat)

  /** `waitForConfirmation`: the confirmed round, or the rethrown failure. */
  function WaitForConfirmation(txId: string, wait: string -> Result<nat, string>): (r: Result<nat, string>)
    ensures r.Ok? <==> wait(txId).Ok?
    ensures r.Ok? ==> r.value == wait(txId).value
    ensures r.Err? ==> r.error == PrefixConfirm + wait(txId).error
  {
    Rethrow(PrefixConfirm, wait(txId))
  }

  /** `submitTransaction`: send, then wait for the id the node returned. A
      confirmation failure carries both prefixes. */
  function SubmitTransaction(signed: string, send: string -> Result<string, string>,
                             wait: string -> Result<nat, string>): (r: Result<Submitted, string>)
    ensures r.Ok? <==> send(signed).Ok? && wait(send(signed).value).Ok?
    ensures r.Ok? ==> r.value == Submitted(send(signed).value, wait(send(signed).value).value)
    ensures send(signed).Err? ==> r.error == PrefixSubmit + send(signed).error
    ensures send(signed).Ok? && wait(send(signed).value).Err? ==>
              r.error == PrefixSubmit + PrefixConfirm + wait(send(signed).value).error
  {
    match send(signed)
    case Err(e) => Err(PrefixSubmit + e)
    case Ok(txId) =>
      match WaitForConfirmation(txId, wait)
      case Err(e) => Err(PrefixSubmit + e)
      case Ok(round) => Ok(Submitted(txId, round))
  }
}
