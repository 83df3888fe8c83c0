/** The HTTP handlers of `NFTController`: ordered field checks that either
    answer 400 or call into the service, whose thrown errors become 500.
    Request bodies are records of optional fields; a field that is absent
    from the JSON is `None`. */
module Controller {
  import opened Wrappers
  import opened Bytes
  import opened JsText
  import opened Service

  /** A response: 200 with data, 400 with a message (`flagged` when the
      body also carries `success: false`), or 500 with the service's
      message. */
  datatype Reply<D> = Success(data: D) | BadRequest(error: string, flagged: bool) | ServerError(error: string) {
    function Status(): int {
      match this
      case Success(_) => 200
      case BadRequest(_, _) => 400
      case ServerError(_) => 500
    }
  }

  /** `try { ... } catch (error) { 500, error.message }` around one service call. */
  function Serve<T>(r: Result<T, string>): Reply<T> {
    match r
    case Ok(v) => Success(v)
    case Err(e) => ServerError(e)
  }

  const CreatorRequired: string := "Creator address is required. Please connect your wallet."
  const NameTypeRequired: string := "NFT name and type are required fields."
  const TypeInvalid: string := "Type must be art, music, or standard"
  const PriceRequired: string := "Price must be greater than 0 for purchasable NFTs"
  const SellerPriceRequired: string := "Seller and valid price are required"
  const BuyFieldsRequired: string := "Buyer, seller, and price are required"
  const SignedRequired: string := "Signed transaction is required"
  const AddressRequired: string := "Address is required"

  const MintMessage: string := "Sign both transactions in your wallet"
  const BuyMessage: string := "Sign all grouped transactions in your wallet"

  /** The fee rate used when `PLATFORM_FEE` is unset, unparsable or 0. */
  const DefaultPlatformFee: int := 250

  predicate IsNftTypeName(t: string) { t == "art" || t == "music" || t == "standard" }

  // ---------------------------------------------------------------------
  // mintNFT

  datatype MintRequest = MintRequest(creator: Option<string>, name: Option<string>, kind: Option<string>,
                                     purchasable: Option<bool>, price: Option<int>,
                                     assetName: Option<string>, unitName: Option<string>,
                                     description: Option<string>, metadata: Option<string>)

  /** The two service requests a valid mint turns into. */
  datatype MintCall = MintCall(asset: AssetParams, app: MintParams)

  /** The mint request's checks, in order: creator, then name and type,
      then the type list, then a positive price for a purchasable NFT. */
  function ValidateMint(q: MintRequest): (r: Result<MintCall, string>)
    ensures !TruthyStr(q.creator) ==> r == Err(CreatorRequired)
    ensures TruthyStr(q.creator) && (!TruthyStr(q.name) || !TruthyStr(q.kind)) ==> r == Err(NameTypeRequired)
    ensures TruthyStr(q.creator) && TruthyStr(q.name) && TruthyStr(q.kind) && !IsNftTypeName(q.kind.value) ==>
              r == Err(TypeInvalid)
    ensures (&& TruthyStr(q.creator) && TruthyStr(q.name) && TruthyStr(q.kind) && IsNftTypeName(q.kind.value)
             && TruthyBool(q.purchasable) && (q.price.None? || q.price.value <= 0)) ==>
              r == Err(PriceRequired)
    ensures r.Ok? <==>
      && TruthyStr(q.creator) && TruthyStr(q.name) && TruthyStr(q.kind) && IsNftTypeName(q.kind.value)
      && (TruthyBool(q.purchasable) ==> q.price.Some? && q.price.value > 0)
    ensures r.Ok? ==>
      var a := r.value.asset;
      && a.creator == q.creator
      && a.assetName == (if TruthyStr(q.assetName) then q.assetName.value else q.name.value)
      && a.unitName == Some(if TruthyStr(q.unitName) then q.unitName.value else "NFT")
      && a.total == Some(1) && a.decimals == Some(0) && a.url == Some("")
      && a.metadata == Some(if TruthyStr(q.description) then q.description.value
                            else if TruthyStr(q.metadata) then q.metadata.value else "")
    ensures r.Ok? ==>
      var m := r.value.app;
      && m.creator == q.creator.value && m.name == q.name.value && m.kind == q.kind.value
      && m.purchasable == TruthyBool(q.purchasable)
      && m.price == Some(if TruthyInt(q.price) then q.price.value else 0)
  {
    if !TruthyStr(q.creator) then Err(CreatorRequired)
    else if !TruthyStr(q.name) || !TruthyStr(q.kind) then Err(NameTypeRequired)
    else if !IsNftTypeName(q.kind.value) then Err(TypeInvalid)
    else if TruthyBool(q.purchasable) && (!TruthyInt(q.price) || q.price.value <= 0) then Err(PriceRequired)
    else
      var metadata := OrStr(q.description, OrStr(q.metadata, ""));
      Ok(MintCall(
        AssetParams(q.creator, OrStr(q.assetName, q.name.value), Some(OrStr(q.unitName, "NFT")),
                    Some(1), Some(0), Some(""), Some(metadata)),
        MintParams(q.creator.value, q.name.value, q.kind.value, TruthyBool(q.purchasable),
                   Some(OrInt(q.price, 0)))))
  }

  datatype MintData = MintData(assetTransaction: Built, appTransaction: Built, message: string)

  /** `mintNFT`: validation, then the asset transaction, then the
      application call; `netAsset` and `netMint` are the two
      suggested-parameter answers. */
  function MintNft(cfg: Config, q: MintRequest, netAsset: Result<Params, string>,
                   netMint: Result<Params, string>): (r: Reply<MintData>)
    ensures ValidateMint(q).Err? ==> r == BadRequest(ValidateMint(q).error, true)
    ensures r.BadRequest? <==> ValidateMint(q).Err?
    ensures r.Success? ==>
      && ValidateMint(q).Ok?
      && Ok(r.data.assetTransaction) == CreateNftAsset(ValidateMint(q).value.asset, netAsset)
      && Ok(r.data.appTransaction) == CreateMintTransaction(cfg, ValidateMint(q).value.app, netMint)
      && r.data.message == MintMessage
    ensures r.ServerError? ==>
      && ValidateMint(q).Ok?
      && var asset := CreateNftAsset(ValidateMint(q).value.asset, netAsset);
         var app := CreateMintTransaction(cfg, ValidateMint(q).value.app, netMint);
         if asset.Err? then r.error == asset.error
         else app.Err? && r.error == app.error
  {
    match ValidateMint(q)
    case Err(e) => BadRequest(e, true)
    case Ok(call) =>
      match CreateNftAsset(call.asset, netAsset)
      case Err(e) => ServerError(e)
      case Ok(assetTxn) =>
        match CreateMintTransaction(cfg, call.app, netMint)
        case Err(e) => ServerError(e)
        case Ok(appTxn) => Success(MintData(assetTxn, appTxn, MintMessage))
  }

  /** A validated mint never fails on the asset's creator check: the
      controller has already demanded a creator. */
  lemma ValidMintHasCreator(q: MintRequest, netAsset: Result<Params, string>)
    requires ValidateMint(q).Ok?
    ensures CreateNftAsset(ValidateMint(q).value.asset, netAsset).Ok? <==> netAsset.Ok?
  {
  }

  // ---------------------------------------------------------------------
  // listNFT, buyNFT

  datatype ListRequest = ListRequest(seller: Option<string>, price: Option<int>)

  /** `listNFT`: a seller and a positive price are required. */
  function ListNft(cfg: Config, q: ListRequest, net: Result<Params, string>): (r: Reply<Built>)
    ensures r.BadRequest? <==> !TruthyStr(q.seller) || q.price.None? || q.price.value <= 0
    ensures r.BadRequest? ==> r == BadRequest(SellerPriceRequired, true)
    ensures !r.BadRequest? ==> r == Serve(CreateListTransaction(cfg, q.seller.value, q.price.value, net))
  {
    if !TruthyStr(q.seller) || !TruthyInt(q.price) || q.price.value <= 0 then BadRequest(SellerPriceRequired, true)
    else Serve(CreateListTransaction(cfg, q.seller.value, q.price.value, net))
  }

  /** `parseInt(process.env.PLATFORM_FEE) || 250`. */
  function PlatformFeeRate(env: Option<string>): (rate: int)
    ensures rate != 0
    ensures env.None? ==> rate == DefaultPlatformFee
    ensures env.Some? && ParseInt(env.value).Some? && ParseInt(env.value).value != 0 ==>
              rate == ParseInt(env.value).value
    ensures env.Some? && (ParseInt(env.value).None? || ParseInt(env.value).value == 0) ==> rate == DefaultPlatformFee
  {
    match env
    case None => DefaultPlatformFee
    case Some(s) =>
      match ParseInt(s)
      case None => DefaultPlatformFee
      case Some(v) => if v != 0 then v else DefaultPlatformFee
  }

  /** A positive rate written in decimal is used as written. */
  lemma FeeRateOfDecimal(n: nat)
    requires n > 0
    ensures PlatformFeeRate(Some(Decimal(n))) == n
  {
    ParseIntDecimal(n);
  }

  datatype BuyRequest = BuyRequest(buyer: Option<string>, seller: Option<string>, price: Option<int>)
  datatype BuyData = BuyData(txns: seq<Built>, groupId: Bytes, platformFee: int, message: string)

  /** `buyNFT`: only falsy fields are refused, so a negative price reaches
      the service; the fee rate in force is echoed in the reply. */
  function BuyNft(cfg: Config, q: BuyRequest, feeEnv: Option<string>, net: Result<Params, string>,
                  groupIdOf: seq<Algorand.Txn<string>> -> Bytes): (r: Reply<BuyData>)
    ensures r.BadRequest? <==> !TruthyStr(q.buyer) || !TruthyStr(q.seller) || !TruthyInt(q.price)
    ensures r.BadRequest? ==> r == BadRequest(BuyFieldsRequired, true)
    ensures !r.BadRequest? ==>
      var built := CreateBuyTransaction(cfg, q.buyer.value, q.seller.value, q.price.value,
                                        PlatformFeeRate(feeEnv), net, groupIdOf);
      && (r.Success? <==> built.Ok?)
      && (r.Success? ==> r.data == BuyData(built.value.txns, built.value.groupId, PlatformFeeRate(feeEnv), BuyMessage))
      && (r.ServerError? ==> r.error == built.error)
  {
    if !TruthyStr(q.buyer) || !TruthyStr(q.seller) || !TruthyInt(q.price) then BadRequest(BuyFieldsRequired, true)
    else
      var rate := PlatformFeeRate(feeEnv);
      match CreateBuyTransaction(cfg, q.buyer.value, q.seller.value, q.price.value, rate, net, groupIdOf)
      case Err(e) => ServerError(e)
      case Ok(b) => Success(BuyData(b.txns, b.groupId, rate, BuyMessage))
  }

  // ---------------------------------------------------------------------
  // submitTransaction, optIn, getAccount

  /** `submitTransaction`: a signed transaction is required. */
  function Submit(signed: Option<string>, send: string -> Result<string, string>,
                  wait: string -> Result<nat, string>): (r: Reply<Submitted>)
    ensures r.BadRequest? <==> !TruthyStr(signed)
    ensures r.BadRequest? ==> r == BadRequest(SignedRequired, true)
    ensures !r.BadRequest? ==> r == Serve(SubmitTransaction(signed.value, send, wait))
  {
    if !TruthyStr(signed) then BadRequest(SignedRequired, true)
    else Serve(SubmitTransaction(signed.value, send, wait))
  }

  /** `optIn`: an address is required. */
  function OptIn(cfg: Config, address: Option<string>, net: Result<Params, string>): (r: Reply<Built>)
    ensures r.BadRequest? <==> !TruthyStr(address)
    ensures r.BadRequest? ==> r == BadRequest(AddressRequired, true)
    ensures !r.BadRequest? ==> r == Serve(CreateOptInTransaction(cfg, address.value, net))
  {
    if !TruthyStr(address) then BadRequest(AddressRequired, true)
    else Serve(CreateOptInTransaction(cfg, address.value, net))
  }

  datatype AccountData = AccountData(info: AccountInfo, nftData: Option<map<string, StateValue>>)

  /** `getAccount`: the account record and the decoded application state.
      Its 400 reply carries no `success` field. */
  function GetAccount(cfg: Config, address: Option<string>, lookup: string -> Result<AccountRecord, string>,
                      decode: Bytes -> string): (r: Reply<AccountData>)
    ensures r.BadRequest? <==> !TruthyStr(address)
    ensures r.BadRequest? ==> r == BadRequest(AddressRequired, false)
    ensures r.Success? ==>
      && lookup(address.value).Ok?
      && r.data.info == GetAccountInfo(address.value, lookup).value
      && r.data.nftData == GetApplicationState(cfg.appId, address.value, lookup, decode).value
    ensures r.ServerError? ==>
      TruthyStr(address) && lookup(address.value).Err? && r.error == PrefixAccount + lookup(address.value).error
  {
    if !TruthyStr(address) then BadRequest(AddressRequired, false)
    else
      match GetAccountInfo(address.value, lookup)
      case Err(e) => ServerError(e)
      case Ok(info) =>
        match GetApplicationState(cfg.appId, address.value, lookup, decode)
        case Err(e) => ServerError(e)
        case Ok(state) => Success(AccountData(info, state))
  }

  // ---------------------------------------------------------------------
  // Properties across handlers

  /** A request refused with 400 never reaches the service: the reply does
      not depend on anything the network would have answered. */
  lemma RejectedMintIgnoresNetwork(cfg: Config, q: MintRequest, n1: Result<Params, string>,
                                   n2: Result<Params, string>, m1: Result<Params, string>,
                                   m2: Result<Params, string>)
    requires ValidateMint(q).Err?
    ensures MintNft(cfg, q, n1, n2) == MintNft(cfg, q, m1, m2)
    ensures MintNft(cfg, q, n1, n2).Status() == 400
  {
  }

  /** A mint reaching the service fails with 500 exactly when one of the
      two service calls fails, and the reply is never a 400 then. */
  lemma ServiceErrorsAre500(cfg: Config, q: MintRequest, netAsset: Result<Params, string>,
                            netMint: Result<Params, string>)
    requires ValidateMint(q).Ok?
    ensures MintNft(cfg, q, netAsset, netMint).Status() == 500 <==>
              netAsset.Err? || netMint.Err? || CreateMintTransaction(cfg, ValidateMint(q).value.app, netMint).Err?
    ensures netAsset.Err? ==> MintNft(cfg, q, netAsset, netMint).error == PrefixAsset + netAsset.error
  {
  }

  /** A purchasable mint that validates carries a positive price to the
      service; a non-purchasable one always validates on price grounds. */
  lemma MintPriceRule(q: MintRequest)
    requires TruthyStr(q.creator) && TruthyStr(q.name) && TruthyStr(q.kind) && IsNftTypeName(q.kind.value)
    ensures !TruthyBool(q.purchasable) ==> ValidateMint(q).Ok?
    ensures ValidateMint(q).Ok? && TruthyBool(q.purchasable) ==> ValidateMint(q).value.app.price.value > 0
  {
  }
}
