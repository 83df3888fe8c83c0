/** How the three tiers line up: the transactions the backend assembles,
    once their textual addresses are decoded to public keys by
    `decode`, are the calls the approval program accepts, with the
    records and amounts the request asked for. */
module Integration {
  import opened Wrappers
  import opened Bytes
  import opened Algorand
  import opened JsText
  import Service
  import Controller
  import Contract
  import ContractFacts

  /** The backend and the contract split a price identically; with a rate of
      at most 100% and no 64-bit overflow the contract's split exists. */
  lemma SplitsAgree(price: nat, bp: nat)
    ensures Contract.ContractSplit(price, bp).Some? ==>
      && Contract.ContractSplit(price, bp).value.0 == Service.BackendSplit(price, bp).0
      && Contract.ContractSplit(price, bp).value.1 == Service.BackendSplit(price, bp).1
    ensures price * bp <= MaxUint64 && bp <= Contract.BasisPoints ==> Contract.ContractSplit(price, bp).Some?
  {
    Service.FeeAtMostPrice(price, bp);
  }

  /** A 1 ALGO sale at the default 250 basis points: 25 000 microAlgos to
      the platform, 975 000 to the seller, on both sides. */
  lemma SplitExample()
    ensures Service.BackendSplit(1000000, 250) == (25000, 975000)
    ensures Contract.ContractSplit(1000000, 250) == Some((25000, 975000))
  {
  }

  /** The operation names the backend encodes are the contract's. */
  lemma OpBytes()
    ensures Service.MintOp == Contract.OpMintNft
    ensures Service.ListOp == Contract.OpListNft
    ensures Service.BuyOp == Contract.OpBuyNft
  {
    MintOpBytes();
    ListOpBytes();
    BuyOpBytes();
  }

  lemma MintOpBytes()
    ensures Service.MintOp == Contract.OpMintNft
  {
    Utf8OfAscii("mint_nft");
  }

  lemma ListOpBytes()
    ensures Service.ListOp == Contract.OpListNft
  {
    Utf8OfAscii("list_nft");
  }

  lemma BuyOpBytes()
    ensures Service.BuyOp == Contract.OpBuyNft
  {
    Utf8OfAscii("buy_nft");
  }

  /** The three type names the controller admits are the contract's three
      type constants. */
  lemma TypeBytes(kind: string)
    requires Controller.IsNftTypeName(kind)
    ensures Contract.IsNftType(Utf8(kind))
  {
    Utf8OfAscii(kind);
  }

  /** A mint request that passes validation becomes an application call the
      contract accepts from an opted-in creator, storing the requested name,
      type, flag and price under the creator's own address. */
  lemma ValidMintIsAccepted(cfg: Service.Config, q: Controller.MintRequest, net: Result<Service.Params, string>,
                            s: Contract.AppState, decode: string -> Bytes)
    requires Controller.ValidateMint(q).Ok? && net.Ok? && cfg.appId != 0
    requires 0 <= OrInt(q.price, 0) <= MaxUint64
    requires decode(q.creator.value) in s.local && s.global.nftCount < MaxUint64
    ensures Service.CreateMintTransaction(cfg, Controller.ValidateMint(q).value.app, net).Ok?
    ensures
      var t := MapAddresses(Service.CreateMintTransaction(cfg, Controller.ValidateMint(q).value.app, net).value.txn, decode);
      var sender := decode(q.creator.value);
      var l := Contract.Listing(sender, Utf8(q.name.value), Utf8(q.kind.value),
                                if TruthyBool(q.purchasable) then 1 else 0, OrInt(q.price, 0));
      && t.AppCall?
      && Contract.Apply(s, [t], 0).Some?
      && Contract.Apply(s, [t], 0).value.global.nftCount == s.global.nftCount + 1
      && Contract.Apply(s, [t], 0).value.local == s.local[sender := s.local[sender] + Contract.Entries(l)]
  {
    var call := Controller.ValidateMint(q).value;
    var args := Service.MintArgs(call.app.name, call.app.kind, call.app.purchasable, call.app.price).value;
    var t := MapAddresses(Service.CreateMintTransaction(cfg, call.app, net).value.txn, decode);
    var sender := decode(q.creator.value);
    var l := Contract.Listing(sender, Utf8(q.name.value), Utf8(q.kind.value),
                              if TruthyBool(q.purchasable) then 1 else 0, OrInt(q.price, 0));
    assert t.AppCall? && t.args == args && t.sender == sender && t.appId == cfg.appId && t.onComplete == NoOp;
    OpBytes();
    TypeBytes(q.kind.value);
    assert |Utf8(q.name.value)| > 0;
    ContractFacts.Dispatch(s, [t], 0);
    ContractAcceptsMint(s, sender, args, l);
  }

  /** The contract's side of a mint: five well-formed arguments describing a
      valid listing, from an opted-in sender. */
  lemma ContractAcceptsMint(s: Contract.AppState, sender: Contract.Address, args: seq<Bytes>, l: Contract.Listing)
    requires |args| == 5 && args[0] == Contract.OpMintNft && args[1] == l.name && args[2] == l.kind
    requires |args[3]| == 8 && Btoi(args[3]) == Some(l.purchasable)
    requires |args[4]| == 8 && Btoi(args[4]) == Some(l.price)
    requires l.creator == sender && Contract.ValidListing(l) && (l.purchasable == 1 ==> l.price > 0)
    requires sender in s.local && s.global.nftCount < MaxUint64
    ensures Contract.MintNft(s, sender, args).Some?
    ensures Contract.MintNft(s, sender, args).value.global.nftCount == s.global.nftCount + 1
    ensures Contract.MintNft(s, sender, args).value.local == s.local[sender := s.local[sender] + Contract.Entries(l)]
  {
  }

  /** A listing request names the price it asked for: the contract accepts
      it exactly when the seller's record is their own purchasable one, and
      then the stored price is the requested price. */
  lemma ListingRequestSetsPrice(cfg: Service.Config, seller: string, price: int, net: Result<Service.Params, string>,
                                s: Contract.AppState, decode: string -> Bytes)
    requires net.Ok? && cfg.appId != 0 && 0 < price <= MaxUint64
    ensures Service.CreateListTransaction(cfg, seller, price, net).Ok?
    ensures
      var t := MapAddresses(Service.CreateListTransaction(cfg, seller, price, net).value.txn, decode);
      var a := decode(seller);
      && t.AppCall?
      && (Contract.Apply(s, [t], 0).Some? <==>
            && a in s.local
            && Contract.KeyCreator in s.local[a] && s.local[a][Contract.KeyCreator] == Contract.Raw(a)
            && Contract.KeyPurchasable in s.local[a] && s.local[a][Contract.KeyPurchasable] == Contract.Uint(1))
      && (Contract.Apply(s, [t], 0).Some? ==>
            Contract.Apply(s, [t], 0).value.local == s.local[a := s.local[a][Contract.KeyPrice := Contract.Uint(price)]])
  {
    var t := MapAddresses(Service.CreateListTransaction(cfg, seller, price, net).value.txn, decode);
    assert t.args == Service.ListArgs(price).value;
    OpBytes();
    ContractFacts.OpsDistinct();
    ContractFacts.Dispatch(s, [t], 0);
  }

  /** The contract's view of the backend's purchase group. */
  function OnChain(b: Service.BuyBuilt, decode: string -> Bytes): (g: seq<Txn<Contract.Address>>)
    ensures |g| == |b.txns|
    ensures forall i :: 0 <= i < |b.txns| ==> g[i] == MapAddresses(b.txns[i].txn, decode)
  {
    seq(|b.txns|, i requires 0 <= i < |b.txns| => MapAddresses(b.txns[i].txn, decode))
  }

  /** The purchase group the backend builds is accepted by the contract when
      its platform wallet is the contract owner, its fee rate is the
      contract's, the price is the stored one, both parties are opted in,
      and the price and the product price * rate stay in the range where
      JavaScript numbers are exact; the sale then moves the seller's record to the buyer. */
  lemma BuyGroupIsAccepted(cfg: Service.Config, buyer: string, seller: string, price: nat, rate: nat,
                           net: Result<Service.Params, string>, groupIdOf: seq<Txn<string>> -> Bytes,
                           s: Contract.AppState, decode: string -> Bytes)
    requires net.Ok? && cfg.appId != 0
    requires rate == s.global.platformFee && rate <= Contract.BasisPoints
    requires price <= Service.MaxSafeInteger && price * rate <= Service.DoubleExact
    requires decode(cfg.platformWallet) == s.global.owner
    requires decode(buyer) in s.local && decode(seller) in s.local
    requires Contract.KeyPurchasable in s.local[decode(seller)]
    requires s.local[decode(seller)][Contract.KeyPurchasable] == Contract.Uint(1)
    requires Contract.KeyPrice in s.local[decode(seller)]
    requires s.local[decode(seller)][Contract.KeyPrice] == Contract.Uint(price) && price > 0
    ensures Service.CreateBuyTransaction(cfg, buyer, seller, price, rate, net, groupIdOf).Ok?
    ensures
      var g := OnChain(Service.CreateBuyTransaction(cfg, buyer, seller, price, rate, net, groupIdOf).value, decode);
      && |g| == 3 && g[2].AppCall?
      && Contract.Apply(s, g, 2) == Some(Contract.TransferRecord(s, decode(buyer), decode(seller)))
  {
    SplitsAgree(price, rate);
    Service.FeeAtMostPrice(price, rate);
    BuyOnChain(cfg, buyer, seller, price, rate, net, groupIdOf, decode);
    var g := OnChain(Service.CreateBuyTransaction(cfg, buyer, seller, price, rate, net, groupIdOf).value, decode);
    ContractAcceptsBuy(s, g, decode(buyer), decode(seller), price);
  }

  /** The contract's view of the backend's purchase group: the two payments
      and the `buy_nft` call, with every address decoded. */
  lemma BuyOnChain(cfg: Service.Config, buyer: string, seller: string, price: int, rate: int,
                   net: Result<Service.Params, string>, groupIdOf: seq<Txn<string>> -> Bytes, decode: string -> Bytes)
    requires Service.CreateBuyTransaction(cfg, buyer, seller, price, rate, net, groupIdOf).Ok?
    ensures
      var g := OnChain(Service.CreateBuyTransaction(cfg, buyer, seller, price, rate, net, groupIdOf).value, decode);
      var (fee, rest) := Service.BackendSplit(price, rate);
      g == [Payment(decode(buyer), decode(cfg.platformWallet), fee),
            Payment(decode(buyer), decode(seller), rest),
            AppCall(decode(buyer), cfg.appId, NoOp, [Contract.OpBuyNft], [decode(seller)])]
  {
    var b := Service.CreateBuyTransaction(cfg, buyer, seller, price, rate, net, groupIdOf).value;
    var g := OnChain(b, decode);
    var (fee, rest) := Service.BackendSplit(price, rate);
    BuyOpBytes();
    assert g[0] == Payment(decode(buyer), decode(cfg.platformWallet), fee);
    assert g[1] == Payment(decode(buyer), decode(seller), rest);
    assert g[2].args == [Contract.OpBuyNft];
    assert g[2] == AppCall(decode(buyer), cfg.appId, NoOp, [Contract.OpBuyNft], [decode(seller)]);
  }

  /** The contract's side of a sale: the fee to the owner, the rest to the
      seller, then the `buy_nft` call naming the seller. */
  lemma ContractAcceptsBuy(s: Contract.AppState, g: seq<Txn<Contract.Address>>, buyer: Contract.Address,
                           seller: Contract.Address, price: nat)
    requires buyer in s.local && seller in s.local && price > 0
    requires Contract.KeyPurchasable in s.local[seller] && s.local[seller][Contract.KeyPurchasable] == Contract.Uint(1)
    requires Contract.KeyPrice in s.local[seller] && s.local[seller][Contract.KeyPrice] == Contract.Uint(price)
    requires Contract.ContractSplit(price, s.global.platformFee).Some?
    requires |g| == 3
    requires g[0] == Payment(buyer, s.global.owner, Contract.ContractSplit(price, s.global.platformFee).value.0)
    requires g[1] == Payment(buyer, seller, Contract.ContractSplit(price, s.global.platformFee).value.1)
    requires g[2].AppCall? && g[2].appId != 0 && g[2].onComplete == NoOp && g[2].sender == buyer
    requires g[2].args == [Contract.OpBuyNft] && g[2].accounts == [seller]
    ensures Contract.Apply(s, g, 2) == Some(Contract.TransferRecord(s, buyer, seller))
  {
    ContractFacts.OpsDistinct();
    ContractFacts.Dispatch(s, g, 2);
  }

  /** A backend whose fee rate computes a different fee from the contract's
      builds purchase groups the contract always rejects. */
  lemma MismatchedRateIsRejected(cfg: Service.Config, buyer: string, seller: string, price: nat, rate: int,
                                 net: Result<Service.Params, string>, groupIdOf: seq<Txn<string>> -> Bytes,
                                 s: Contract.AppState, decode: string -> Bytes)
    requires Service.CreateBuyTransaction(cfg, buyer, seller, price, rate, net, groupIdOf).Ok? && cfg.appId != 0
    requires decode(seller) in s.local && Contract.KeyPrice in s.local[decode(seller)]
    requires s.local[decode(seller)][Contract.KeyPrice] == Contract.Uint(price)
    requires Contract.ContractSplit(price, s.global.platformFee).Some?
    requires Contract.ContractSplit(price, s.global.platformFee).value.0 != Service.BackendSplit(price, rate).0
    ensures
      var g := OnChain(Service.CreateBuyTransaction(cfg, buyer, seller, price, rate, net, groupIdOf).value, decode);
      |g| == 3 && g[2].AppCall? && Contract.Apply(s, g, 2).None?
  {
    BuyOnChain(cfg, buyer, seller, price, rate, net, groupIdOf, decode);
    var g := OnChain(Service.CreateBuyTransaction(cfg, buyer, seller, price, rate, net, groupIdOf).value, decode);
    ContractFacts.OpsDistinct();
    ContractFacts.Dispatch(s, g, 2);
  }
}
