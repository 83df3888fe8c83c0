/** The AlgoMint marketplace approval program (PyTeal), as a pure transition
    function over application state. Global state is the record
    (`owner`, `nft_count`, `platform_fee`); each opted-in account has a
    local key/value store holding at most one NFT record under the keys
    `creator`, `name`, `type`, `purchasable` and `price`. A failed `Assert`,
    a TEAL panic (type mismatch, overflow, index out of range) or an
    unmatched dispatch all reject the transaction: `None`. */
module Contract {
  import opened Wrappers
  import opened Bytes
  import opened Algorand

  type Address = Bytes

  /** A TEAL stack value: an unsigned 64-bit integer or a byte string. */
  datatype Value = Uint(n: nat) | Raw(b: Bytes)

  type Local = map<string, Value>

  datatype Global = Global(owner: Address, nftCount: nat, platformFee: nat)

  /** Application state; the domain of `local` is the set of opted-in accounts. */
  datatype AppState = AppState(global: Global, local: map<Address, Local>)

  const KeyCreator: string := "creator"
  const KeyPrice: string := "price"
  const KeyPurchasable: string := "purchasable"
  const KeyName: string := "name"
  const KeyType: string := "type"

  const RecordKeys: set<string> := {KeyCreator, KeyPrice, KeyPurchasable, KeyName, KeyType}

  /** 250 basis points, i.e. 2.5%. */
  const InitialPlatformFee: nat := 250
  const BasisPoints: nat := 10000

  const OpMintNft: Bytes := Ascii("mint_nft")
  const OpListNft: Bytes := Ascii("list_nft")
  const OpBuyNft: Bytes := Ascii("buy_nft")
  const OpUpdatePrice: Bytes := Ascii("update_price")
  const OpDelistNft: Bytes := Ascii("delist_nft")

  const TypeArt: Bytes := Ascii("art")
  const TypeMusic: Bytes := Ascii("music")
  const TypeStandard: Bytes := Ascii("standard")

  predicate IsNftType(t: Bytes) {
    t == TypeArt || t == TypeMusic || t == TypeStandard
  }

  // ---------------------------------------------------------------------
  // AVM primitives. `app_local_get`, `app_local_put` and `app_local_del` all
  // fail on an account that has not opted in; the operations below test
  // `a in s.local` once, up front, and then use these total forms.

  /** `app_local_get` on an opted-in account: an absent key reads as 0. */
  function Read(m: Local, k: string): (v: Value)
    ensures k !in m ==> v == Uint(0)
    ensures k in m ==> v == m[k]
  {
    if k in m then m[k] else Uint(0)
  }

  /** `app_local_put` into the local state of an opted-in account. */
  function Put(s: AppState, a: Address, k: string, v: Value): (r: AppState)
    requires a in s.local
    ensures r.global == s.global && r.local.Keys == s.local.Keys
    ensures r.local[a] == s.local[a][k := v]
    ensures forall b :: b in s.local && b != a ==> r.local[b] == s.local[b]
  {
    s.(local := s.local[a := s.local[a][k := v]])
  }

  /** `app_local_del`: deleting an absent key is not an error. */
  function Del(s: AppState, a: Address, k: string): (r: AppState)
    requires a in s.local
    ensures r.global == s.global && a in r.local
    ensures r.local == s.local[a := s.local[a] - {k}]
  {
    s.(local := s.local[a := s.local[a] - {k}])
  }

  // ---------------------------------------------------------------------
  // The NFT record held in one account's local state

  datatype Listing = Listing(creator: Address, name: Bytes, kind: Bytes, purchasable: nat, price: nat)

  /** The five local-state entries a record occupies. */
  function Entries(l: Listing): (m: Local)
    ensures m.Keys == RecordKeys
  {
    map[KeyCreator := Raw(l.creator), KeyName := Raw(l.name), KeyType := Raw(l.kind),
        KeyPurchasable := Uint(l.purchasable), KeyPrice := Uint(l.price)]
  }

  /** A record as the contract can create it: a non-empty name, one of the
      three types, a 0/1 purchasable flag. */
  predicate ValidListing(l: Listing) {
    |l.name| > 0 && IsNftType(l.kind) && l.purchasable <= 1
  }

  /** The five entries hold values of the record's types. */
  predicate HoldsRecord(m: Local) {
    && m.Keys == RecordKeys
    && m[KeyCreator].Raw? && m[KeyName].Raw? && m[KeyType].Raw?
    && m[KeyPurchasable].Uint? && m[KeyPrice].Uint?
  }

  function ListingOf(m: Local): (l: Listing)
    requires HoldsRecord(m)
    ensures m == Entries(l)
  {
    Listing(m[KeyCreator].b, m[KeyName].b, m[KeyType].b, m[KeyPurchasable].n, m[KeyPrice].n)
  }

  /** A local store is either empty or holds exactly one valid record. */
  predicate WellFormedLocal(m: Local) {
    m == map[] || (HoldsRecord(m) && ValidListing(ListingOf(m)))
  }

  lemma EntriesInjective(l1: Listing, l2: Listing)
    requires Entries(l1) == Entries(l2)
    ensures l1 == l2
  {
    assert Entries(l1)[KeyCreator] == Entries(l2)[KeyCreator];
    assert Entries(l1)[KeyName] == Entries(l2)[KeyName];
    assert Entries(l1)[KeyType] == Entries(l2)[KeyType];
    assert Entries(l1)[KeyPurchasable] == Entries(l2)[KeyPurchasable];
    assert Entries(l1)[KeyPrice] == Entries(l2)[KeyPrice];
  }

  // ---------------------------------------------------------------------
  // Operations

  /** Creation call: the sender becomes owner, no NFTs minted yet, 2.5% fee. */
  function Initialize(sender: Address): (s: AppState)
    ensures s.global.owner == sender && s.global.nftCount == 0
    ensures s.global.platformFee == InitialPlatformFee
    ensures s.local == map[]
  {
    AppState(Global(sender, 0, InitialPlatformFee), map[])
  }

  /** Five `app_local_put`s of one record's entries amount to a map union. */
  lemma PutRecord(s: AppState, a: Address, l: Listing)
    requires a in s.local
    ensures
      var s5 := Put(Put(Put(Put(Put(s, a, KeyCreator, Raw(l.creator)), a, KeyName, Raw(l.name)),
                            a, KeyType, Raw(l.kind)), a, KeyPurchasable, Uint(l.purchasable)),
                    a, KeyPrice, Uint(l.price));
      s5.local == s.local[a := s.local[a] + Entries(l)] && s5.global == s.global
  {
    var e := Entries(l);
    var m := s.local[a];
    var m5 := m[KeyCreator := Raw(l.creator)][KeyName := Raw(l.name)][KeyType := Raw(l.kind)]
               [KeyPurchasable := Uint(l.purchasable)][KeyPrice := Uint(l.price)];
    assert m5 == m + e;
  }

  /** Arguments: "mint_nft", name, type, btoi purchasable, btoi price. Every
      argument is read before any check fails, so a short argument list or
      an over-long integer rejects whatever the other arguments are. */
  function MintNft(s: AppState, sender: Address, args: seq<Bytes>): (r: Option<AppState>)
    ensures |args| >= 5 && |args[1]| == 0 ==> r.None?
    ensures |args| >= 5 && !IsNftType(args[2]) ==> r.None?
    ensures |args| >= 5 && |args[3]| <= 8 && Btoi(args[3]).value > 1 ==> r.None?
    ensures (|args| >= 5 && |args[3]| <= 8 && |args[4]| <= 8 && Btoi(args[3]).value == 1
             && Btoi(args[4]).value == 0) ==> r.None?
    ensures r.Some? <==>
      && |args| >= 5 && |args[3]| <= 8 && |args[4]| <= 8
      && ValidListing(Listing(sender, args[1], args[2], Btoi(args[3]).value, Btoi(args[4]).value))
      && (Btoi(args[3]).value == 1 ==> Btoi(args[4]).value > 0)
      && sender in s.local && s.global.nftCount < MaxUint64
    ensures r.Some? ==>
      && r.value.global == s.global.(nftCount := s.global.nftCount + 1)
      && r.value.local
         == s.local[sender := s.local[sender]
                              + Entries(Listing(sender, args[1], args[2], Btoi(args[3]).value, Btoi(args[4]).value))]
  {
    if |args| < 5 then None
    else
      var name := args[1];
      var kind := args[2];
      var purchasable :- Btoi(args[3]);
      var price :- Btoi(args[4]);
      if !(|name| > 0) then None
      else if !IsNftType(kind) then None
      else if !(purchasable == 0 || (purchasable == 1 && price > 0)) then None
      else if sender !in s.local then None
      else
        var s1 := Put(s, sender, KeyCreator, Raw(sender));
        var s2 := Put(s1, sender, KeyName, Raw(name));
        var s3 := Put(s2, sender, KeyType, Raw(kind));
        var s4 := Put(s3, sender, KeyPurchasable, Uint(purchasable));
        var s5 := Put(s4, sender, KeyPrice, Uint(price));
        PutRecord(s, sender, Listing(sender, name, kind, purchasable, price));
        if s5.global.nftCount + 1 > MaxUint64 then None
        else Some(s5.(global := s5.global.(nftCount := s5.global.nftCount + 1)))
  }

  /** Shared body of `list_nft` and `update_price`: only the record's own
      creator may set a positive price, and only on a purchasable record. */
  function SetOwnPrice(s: AppState, sender: Address, args: seq<Bytes>): (r: Option<AppState>)
    ensures r.Some? <==>
      && |args| >= 2 && |args[1]| <= 8 && Btoi(args[1]).value > 0
      && sender in s.local
      && KeyCreator in s.local[sender] && s.local[sender][KeyCreator] == Raw(sender)
      && KeyPurchasable in s.local[sender] && s.local[sender][KeyPurchasable] == Uint(1)
    ensures r.Some? ==>
      && r.value.global == s.global
      && r.value.local == s.local[sender := s.local[sender][KeyPrice := Uint(Btoi(args[1]).value)]]
  {
    if |args| < 2 then None
    else
      var price :- Btoi(args[1]);
      if sender !in s.local then None
      else if Read(s.local[sender], KeyCreator) != Raw(sender) then None
      else if !(price > 0) then None
      else if Read(s.local[sender], KeyPurchasable) != Uint(1) then None
      else Some(Put(s, sender, KeyPrice, Uint(price)))
  }

  /** Arguments: "list_nft", btoi price. */
  function ListNft(s: AppState, sender: Address, args: seq<Bytes>): (r: Option<AppState>)
    ensures r.Some? ==> sender in s.local && KeyPurchasable in s.local[sender]
                        && s.local[sender][KeyPurchasable] == Uint(1)
    ensures r.Some? ==> r.value.global == s.global && r.value.local.Keys == s.local.Keys
  {
    SetOwnPrice(s, sender, args)
  }

  /** Arguments: "update_price", btoi price. */
  function UpdatePrice(s: AppState, sender: Address, args: seq<Bytes>): (r: Option<AppState>)
    ensures r.Some? ==> sender in s.local && KeyCreator in s.local[sender]
                        && s.local[sender][KeyCreator] == Raw(sender)
    ensures r.Some? ==> r.value.global == s.global && r.value.local.Keys == s.local.Keys
  {
    SetOwnPrice(s, sender, args)
  }

  /** Only the record's creator may delist; the price drops to 0. */
  function DelistNft(s: AppState, sender: Address): (r: Option<AppState>)
    ensures r.Some? <==>
      sender in s.local && KeyCreator in s.local[sender] && s.local[sender][KeyCreator] == Raw(sender)
    ensures r.Some? ==>
      && r.value.global == s.global
      && r.value.local == s.local[sender := s.local[sender][KeyPrice := Uint(0)]]
  {
    if sender !in s.local then None
    else if Read(s.local[sender], KeyCreator) != Raw(sender) then None
    else Some(Put(s, sender, KeyPrice, Uint(0)))
  }

  /** The integer fee split of a sale: `fee = floor(price * bp / 10000)`,
      the seller gets the rest. TEAL panics when the product overflows
      64 bits or the subtraction underflows. */
  function ContractSplit(price: nat, bp: nat): (r: Option<(nat, nat)>)
    ensures r.Some? <==> price * bp <= MaxUint64 && (price * bp) / BasisPoints <= price
    ensures r.Some? ==> r.value.0 + r.value.1 == price
    ensures r.Some? ==> r.value.0 * BasisPoints <= price * bp < r.value.0 * BasisPoints + BasisPoints
  {
    if price * bp > MaxUint64 then None
    else
      var fee := (price * bp) / BasisPoints;
      if fee > price then None else Some((fee, price - fee))
  }

  /** The payment at `i` pays exactly `amount` to `to`. */
  predicate PaysTo(group: seq<Txn<Address>>, i: int, to: Address, amount: nat) {
    0 <= i < |group| && group[i].Payment? && group[i].receiver == to && group[i].amount == amount
  }

  /** The buyer's store after the five puts: the seller's creator, name,
      type and purchasable flag, price 0. Each key of the seller is read
      before the same key of the buyer is written, so reading the seller's
      original store is exact even when buyer and seller coincide. */
  function BoughtStore(buyerStore: Local, sellerStore: Local): (m: Local)
    ensures m.Keys == buyerStore.Keys + RecordKeys
    ensures m[KeyPrice] == Uint(0)
    ensures forall k :: k in RecordKeys && k != KeyPrice ==> m[k] == Read(sellerStore, k)
    ensures forall k :: k in buyerStore && k !in RecordKeys ==> m[k] == buyerStore[k]
  {
    buyerStore[KeyCreator := Read(sellerStore, KeyCreator)]
              [KeyName := Read(sellerStore, KeyName)]
              [KeyType := Read(sellerStore, KeyType)]
              [KeyPurchasable := Read(sellerStore, KeyPurchasable)]
              [KeyPrice := Uint(0)]
  }

  /** Copies the seller's record to the buyer (price reset to 0), then
      deletes the seller's five keys. */
  function TransferRecord(s: AppState, buyer: Address, seller: Address): (r: AppState)
    requires buyer in s.local && seller in s.local
    ensures r.global == s.global && r.local.Keys == s.local.Keys
    ensures r.local[seller] == (if buyer == seller then BoughtStore(s.local[buyer], s.local[seller])
                                else s.local[seller]) - RecordKeys
    ensures buyer != seller ==> r.local[buyer] == BoughtStore(s.local[buyer], s.local[seller])
    ensures forall b :: b in s.local && b != buyer && b != seller ==> r.local[b] == s.local[b]
  {
    var afterPuts := s.(local := s.local[buyer := BoughtStore(s.local[buyer], s.local[seller])]);
    DeleteRecord(afterPuts, seller)
  }

  /** The five `app_local_del`s of the seller's record keys, taken together:
      the record's keys are gone, every other key and account is as it was. */
  function DeleteRecord(s: AppState, a: Address): (r: AppState)
    requires a in s.local
    ensures r.global == s.global && r.local.Keys == s.local.Keys
    ensures r.local[a].Keys == s.local[a].Keys - RecordKeys
    ensures forall k :: k in r.local[a] ==> r.local[a][k] == s.local[a][k]
    ensures forall b :: b in s.local && b != a ==> r.local[b] == s.local[b]
  {
    s.(local := s.local[a := s.local[a] - RecordKeys])
  }

  /** The buy call at position `index` of `group`; the seller is the first
      foreign account. */
  function BuyNft(s: AppState, group: seq<Txn<Address>>, index: nat): (r: Option<AppState>)
    requires index < |group| && group[index].AppCall?
    ensures r.Some? <==>
      && |group[index].accounts| >= 1
      && var seller := group[index].accounts[0];
         && seller in s.local && group[index].sender in s.local
         && KeyPurchasable in s.local[seller] && s.local[seller][KeyPurchasable] == Uint(1)
         && KeyPrice in s.local[seller] && s.local[seller][KeyPrice].Uint?
         && var price := s.local[seller][KeyPrice].n;
            && price > 0
            && ContractSplit(price, s.global.platformFee).Some?
            && var (fee, rest) := ContractSplit(price, s.global.platformFee).value;
               && PaysTo(group, index as int - 1, seller, rest)
               && PaysTo(group, index as int - 2, s.global.owner, fee)
    ensures r.Some? ==> r.value == TransferRecord(s, group[index].sender, group[index].accounts[0])
  {
    var t := group[index];
    if |t.accounts| < 1 then None
    else
      var seller := t.accounts[0];
      if seller !in s.local then None
      else
        var purchasable := Read(s.local[seller], KeyPurchasable);
        var price := Read(s.local[seller], KeyPrice);
        if purchasable != Uint(1) then None
        else if !price.Uint? || !(price.n > 0) then None
        else
          var split :- ContractSplit(price.n, s.global.platformFee);
          if !PaysTo(group, index as int - 1, seller, split.1) then None
          else if !PaysTo(group, index as int - 2, s.global.owner, split.0) then None
          else if t.sender !in s.local then None
          else Some(TransferRecord(s, t.sender, seller))
  }

  /** The `Cond` dispatch of the approval program for the call at `index`. */
  function Approval(s: AppState, group: seq<Txn<Address>>, index: nat): (r: Option<AppState>)
    requires index < |group| && group[index].AppCall?
    ensures group[index].appId == 0 ==> r == Some(Initialize(group[index].sender))
    ensures group[index].appId != 0 && group[index].onComplete == OptIn ==>
      (r.Some? <==> group[index].sender !in s.local)
      && (r.Some? ==> r.value == s.(local := s.local[group[index].sender := map[]]))
    ensures group[index].appId != 0 && group[index].onComplete == CloseOut ==>
      (r.Some? <==> group[index].sender in s.local)
      && (r.Some? ==> r.value == s.(local := s.local - {group[index].sender}))
    ensures group[index].appId != 0 && group[index].onComplete == NoOp && |group[index].args| == 0 ==> r.None?
    ensures r.Some? && group[index].appId != 0 ==>
      && r.value.global.owner == s.global.owner
      && r.value.global.platformFee == s.global.platformFee
      && r.value.global.nftCount >= s.global.nftCount
  {
    var t := group[index];
    if t.appId == 0 then Some(Initialize(t.sender))
    else if t.onComplete == OptIn then
      // the ledger allocates the local state before the program approves
      if t.sender in s.local then None else Some(s.(local := s.local[t.sender := map[]]))
    else if t.onComplete == CloseOut then
      if t.sender in s.local then Some(s.(local := s.local - {t.sender})) else None
    else if t.onComplete == UpdateApplication || t.onComplete == DeleteApplication then
      if t.sender == s.global.owner then Some(s) else None
    else if |t.args| == 0 then None
    else if t.args[0] == OpMintNft then MintNft(s, t.sender, t.args)
    else if t.args[0] == OpListNft then ListNft(s, t.sender, t.args)
    else if t.args[0] == OpBuyNft then BuyNft(s, group, index)
    else if t.args[0] == OpUpdatePrice then UpdatePrice(s, t.sender, t.args)
    else if t.args[0] == OpDelistNft then DelistNft(s, t.sender)
    else None
  }

  /** One application call as the ledger applies it: a clear-state call runs
      the clear-state program (which always approves) and drops the sender's
      local state; every other call runs the approval program. */
  function Apply(s: AppState, group: seq<Txn<Address>>, index: nat): (r: Option<AppState>)
    requires index < |group| && group[index].AppCall?
    ensures group[index].appId != 0 && group[index].onComplete == ClearState ==>
      (r.Some? <==> group[index].sender in s.local)
      && (r.Some? ==> r.value == s.(local := s.local - {group[index].sender}))
    ensures r.Some? && group[index].appId != 0 ==>
      && r.value.global.owner == s.global.owner
      && r.value.global.platformFee == s.global.platformFee
      && r.value.global.nftCount >= s.global.nftCount
  {
    var t := group[index];
    if t.onComplete == ClearState && t.appId != 0 then
      if t.sender in s.local then Some(s.(local := s.local - {t.sender})) else None
    else Approval(s, group, index)
  }
}
