/** Properties of the marketplace approval program that relate several
    calls: the dispatch table, the state invariant every call preserves,
    and what a sale does to the buyer's and seller's records. */
module ContractFacts {
  import opened Wrappers
  import opened Bytes
  import opened Algorand
  import opened Contract

  // ---------------------------------------------------------------------
  // Creation and administration

  /** A creation call (application id 0) runs `initialize`, whatever else
      the transaction says. */
  lemma CreationInitializes(s: AppState, group: seq<Txn<Address>>, index: nat)
    requires index < |group| && group[index].AppCall? && group[index].appId == 0
    ensures Apply(s, group, index) == Some(AppState(Global(group[index].sender, 0, 250), map[]))
  {
  }

  /** Update and delete calls are approved exactly when the owner sends them,
      and change no state. */
  lemma UpdateDeleteOnlyByOwner(s: AppState, group: seq<Txn<Address>>, index: nat)
    requires index < |group| && group[index].AppCall? && group[index].appId != 0
    requires group[index].onComplete in {UpdateApplication, DeleteApplication}
    ensures Apply(s, group, index).Some? <==> group[index].sender == s.global.owner
    ensures Apply(s, group, index).Some? ==> Apply(s, group, index).value == s
  {
  }

  lemma OpsDistinct()
    ensures OpMintNft != OpListNft && OpMintNft != OpBuyNft && OpMintNft != OpUpdatePrice
    ensures OpMintNft != OpDelistNft && OpListNft != OpBuyNft && OpListNft != OpUpdatePrice
    ensures OpListNft != OpDelistNft && OpBuyNft != OpUpdatePrice && OpBuyNft != OpDelistNft
    ensures OpUpdatePrice != OpDelistNft
  {
    assert OpMintNft[0] != OpListNft[0];
    assert OpMintNft[0] != OpBuyNft[0];
    assert OpMintNft[0] != OpUpdatePrice[0];
    assert OpMintNft[0] != OpDelistNft[0];
    assert OpListNft[0] != OpBuyNft[0];
    assert OpListNft[0] != OpUpdatePrice[0];
    assert OpListNft[0] != OpDelistNft[0];
    assert OpBuyNft[0] != OpUpdatePrice[0];
    assert OpBuyNft[0] != OpDelistNft[0];
    assert OpUpdatePrice[0] != OpDelistNft[0];
  }

  /** A no-op call is routed by its first argument; no argument, or an
      unknown operation name, rejects the call. */
  lemma Dispatch(s: AppState, group: seq<Txn<Address>>, index: nat)
    requires index < |group| && group[index].AppCall? && group[index].appId != 0
    requires group[index].onComplete == NoOp
    ensures var t := group[index];
      && (|t.args| == 0 ==> Apply(s, group, index).None?)
      && (|t.args| > 0 && t.args[0] == OpMintNft ==> Apply(s, group, index) == MintNft(s, t.sender, t.args))
      && (|t.args| > 0 && t.args[0] == OpListNft ==> Apply(s, group, index) == ListNft(s, t.sender, t.args))
      && (|t.args| > 0 && t.args[0] == OpBuyNft ==> Apply(s, group, index) == BuyNft(s, group, index))
      && (|t.args| > 0 && t.args[0] == OpUpdatePrice ==> Apply(s, group, index) == UpdatePrice(s, t.sender, t.args))
      && (|t.args| > 0 && t.args[0] == OpDelistNft ==> Apply(s, group, index) == DelistNft(s, t.sender))
      && (|t.args| > 0 && t.args[0] !in {OpMintNft, OpListNft, OpBuyNft, OpUpdatePrice, OpDelistNft}
          ==> Apply(s, group, index).None?)
  {
    OpsDistinct();
  }

  // ---------------------------------------------------------------------
  // The state invariant

  /** Accounts whose local state currently holds an NFT record. */
  function Holders(s: AppState): (h: set<Address>)
    ensures forall a :: a in h <==> a in s.local && s.local[a] != map[]
  {
    set a | a in s.local && s.local[a] != map[]
  }

  /** What every reachable state satisfies: the fee stays at 250 basis
      points, every local store is empty or holds one valid record, and
      `nft_count` (which counts mints, not live records) is at least the
      number of accounts holding a record. */
  predicate Invariant(s: AppState) {
    && s.global.platformFee == InitialPlatformFee
    && s.global.nftCount <= MaxUint64
    && (forall a :: a in s.local ==> WellFormedLocal(s.local[a]))
    && |Holders(s)| <= s.global.nftCount
  }

  lemma SubsetCard<T>(a: set<T>, b: set<T>)
    requires a <= b
    ensures |a| <= |b|
  {
    assert b == a + (b - a);
    assert a * (b - a) == {};
  }

  lemma InitializeEstablishes(sender: Address)
    ensures Invariant(Initialize(sender))
  {
    assert Holders(Initialize(sender)) == {};
  }

  /** A valid record survives a change of price. */
  lemma RepriceKeepsRecord(m: Local, p: nat)
    requires m != map[] && WellFormedLocal(m)
    ensures m[KeyPrice := Uint(p)] != map[] && WellFormedLocal(m[KeyPrice := Uint(p)])
  {
    var l := ListingOf(m);
    assert m[KeyPrice := Uint(p)] == Entries(l.(price := p));
    assert KeyPrice in m[KeyPrice := Uint(p)];
  }

  /** Writing a valid record over an empty or well-formed store yields
      exactly that record. */
  lemma OverwriteRecord(m: Local, l: Listing)
    requires WellFormedLocal(m) && ValidListing(l)
    ensures m + Entries(l) == Entries(l)
    ensures WellFormedLocal(Entries(l)) && Entries(l) != map[]
  {
    assert (m + Entries(l)).Keys == Entries(l).Keys;
    assert KeyCreator in Entries(l);
    assert ListingOf(Entries(l)) == l;
  }

  /** The buyer's store after a purchase holds the seller's record at price 0. */
  lemma BoughtStoreIsRecord(buyerStore: Local, sellerStore: Local)
    requires WellFormedLocal(buyerStore) && WellFormedLocal(sellerStore) && sellerStore != map[]
    ensures BoughtStore(buyerStore, sellerStore) == Entries(ListingOf(sellerStore).(price := 0))
    ensures WellFormedLocal(BoughtStore(buyerStore, sellerStore))
    ensures BoughtStore(buyerStore, sellerStore) != map[]
  {
    var l := ListingOf(sellerStore).(price := 0);
    var b := BoughtStore(buyerStore, sellerStore);
    assert b.Keys == RecordKeys;
    assert b == Entries(l);
    OverwriteRecord(map[], l);
  }

  lemma MintPreserves(s: AppState, sender: Address, args: seq<Bytes>)
    requires Invariant(s) && MintNft(s, sender, args).Some?
    ensures Invariant(MintNft(s, sender, args).value)
  {
    var s' := MintNft(s, sender, args).value;
    var l := Listing(sender, args[1], args[2], Btoi(args[3]).value, Btoi(args[4]).value);
    OverwriteRecord(s.local[sender], l);
    assert s'.local == s.local[sender := Entries(l)];
    assert Holders(s') <= Holders(s) + {sender};
    SubsetCard(Holders(s'), Holders(s) + {sender});
  }

  lemma RepricePreserves(s: AppState, sender: Address, p: nat)
    requires Invariant(s) && sender in s.local && s.local[sender] != map[]
    ensures Invariant(s.(local := s.local[sender := s.local[sender][KeyPrice := Uint(p)]]))
  {
    var s' := s.(local := s.local[sender := s.local[sender][KeyPrice := Uint(p)]]);
    RepriceKeepsRecord(s.local[sender], p);
    assert Holders(s') == Holders(s);
  }

  /** The stores a sale leaves behind: the buyer's holds a valid record,
      the seller's is empty, nobody else's changed. */
  lemma BuyStores(s: AppState, group: seq<Txn<Address>>, index: nat)
    requires index < |group| && group[index].AppCall?
    requires Invariant(s) && BuyNft(s, group, index).Some?
    ensures var s' := BuyNft(s, group, index).value;
            var buyer := group[index].sender;
            var seller := group[index].accounts[0];
            && s'.global == s.global && s'.local.Keys == s.local.Keys
            && seller in s.local && s.local[seller] != map[]
            && s'.local[seller] == map[]
            && (buyer != seller ==> WellFormedLocal(s'.local[buyer]) && s'.local[buyer] != map[])
            && (forall a :: a in s.local && a != buyer && a != seller ==> s'.local[a] == s.local[a])
  {
    var buyer := group[index].sender;
    var seller := group[index].accounts[0];
    assert KeyPurchasable in s.local[seller];
    BoughtStoreIsRecord(s.local[buyer], s.local[seller]);
  }

  lemma BuyPreserves(s: AppState, group: seq<Txn<Address>>, index: nat)
    requires index < |group| && group[index].AppCall?
    requires Invariant(s) && BuyNft(s, group, index).Some?
    ensures Invariant(BuyNft(s, group, index).value)
  {
    var buyer := group[index].sender;
    var seller := group[index].accounts[0];
    var s' := BuyNft(s, group, index).value;
    BuyStores(s, group, index);
    assert forall a :: a in s'.local ==> WellFormedLocal(s'.local[a]);
    assert Holders(s') <= (Holders(s) - {seller}) + {buyer};
    SwapCard(Holders(s'), Holders(s), seller, buyer);
  }

  /** Trading one member of `h` for another element does not grow it. */
  lemma SwapCard<T>(a: set<T>, h: set<T>, out: T, into: T)
    requires out in h && a <= (h - {out}) + {into}
    ensures |a| <= |h|
  {
    SubsetCard(a, (h - {out}) + {into});
  }

  /** Every accepted call from an invariant state leads to an invariant state. */
  lemma ApplyPreservesInvariant(s: AppState, group: seq<Txn<Address>>, index: nat)
    requires index < |group| && group[index].AppCall?
    requires Invariant(s) && Apply(s, group, index).Some?
    ensures Invariant(Apply(s, group, index).value)
  {
    var t := group[index];
    if t.appId == 0 {
      InitializeEstablishes(t.sender);
    } else if t.onComplete == NoOp {
      OperationPreserves(s, group, index);
    } else {
      LifecyclePreserves(s, group, index);
    }
  }

  /** Opt-in, close-out, clear-state, update and delete calls keep the
      invariant: they add an empty store, drop one, or change nothing. */
  lemma LifecyclePreserves(s: AppState, group: seq<Txn<Address>>, index: nat)
    requires index < |group| && group[index].AppCall? && group[index].appId != 0
    requires group[index].onComplete != NoOp
    requires Invariant(s) && Apply(s, group, index).Some?
    ensures Invariant(Apply(s, group, index).value)
  {
    var t := group[index];
    if t.onComplete == ClearState || t.onComplete == CloseOut {
      DropPreserves(s, t.sender);
    } else if t.onComplete == OptIn {
      AddEmptyPreserves(s, t.sender);
    }
  }

  /** Dropping an account's local state keeps the invariant. */
  lemma DropPreserves(s: AppState, a: Address)
    requires Invariant(s)
    ensures Invariant(s.(local := s.local - {a}))
  {
    var s' := s.(local := s.local - {a});
    assert Holders(s') <= Holders(s);
    SubsetCard(Holders(s'), Holders(s));
  }

  /** Allocating an empty local state keeps the invariant. */
  lemma AddEmptyPreserves(s: AppState, a: Address)
    requires Invariant(s) && a !in s.local
    ensures Invariant(s.(local := s.local[a := map[]]))
  {
    var s' := s.(local := s.local[a := map[]]);
    assert Holders(s') == Holders(s);
  }

  /** The five marketplace operations keep the invariant. */
  lemma OperationPreserves(s: AppState, group: seq<Txn<Address>>, index: nat)
    requires index < |group| && group[index].AppCall? && group[index].appId != 0
    requires group[index].onComplete == NoOp
    requires Invariant(s) && Apply(s, group, index).Some?
    ensures Invariant(Apply(s, group, index).value)
  {
    var t := group[index];
    Dispatch(s, group, index);
    OpsDistinct();
    if t.args[0] == OpMintNft {
      MintPreserves(s, t.sender, t.args);
    } else if t.args[0] == OpListNft || t.args[0] == OpUpdatePrice {
      assert KeyCreator in s.local[t.sender];
      RepricePreserves(s, t.sender, Btoi(t.args[1]).value);
    } else if t.args[0] == OpBuyNft {
      BuyPreserves(s, group, index);
    } else {
      assert KeyCreator in s.local[t.sender];
      RepricePreserves(s, t.sender, 0);
    }
  }

  /** One transaction of a ledger history: an application call at `index`
      of its atomic group. */
  datatype Call = Call(group: seq<Txn<Address>>, index: nat)

  predicate WellPlaced(c: Call) {
    c.index < |c.group| && c.group[c.index].AppCall?
  }

  /** Replays a history against the application: a rejected call leaves
      the state as it was. */
  function Replay(s: AppState, calls: seq<Call>): AppState
    requires forall i :: 0 <= i < |calls| ==> WellPlaced(calls[i])
    decreases |calls|
  {
    if |calls| == 0 then s
    else
      var c := calls[0];
      assert WellPlaced(calls[0]);
      var next := match Apply(s, c.group, c.index) case Some(s') => s' case None => s;
      Replay(next, calls[1..])
  }

  /** The invariant holds after any history that starts at creation. */
  lemma {:induction false} ReplayKeepsInvariant(s: AppState, calls: seq<Call>)
    requires forall i :: 0 <= i < |calls| ==> WellPlaced(calls[i])
    requires Invariant(s)
    ensures Invariant(Replay(s, calls))
    decreases |calls|
  {
    if |calls| > 0 {
      var c := calls[0];
      assert WellPlaced(c);
      if Apply(s, c.group, c.index).Some? {
        ApplyPreservesInvariant(s, c.group, c.index);
      }
      var next := match Apply(s, c.group, c.index) case Some(s') => s' case None => s;
      assert forall i :: 0 <= i < |calls[1..]| ==> WellPlaced(calls[1..][i]) by {
        forall i | 0 <= i < |calls[1..]| ensures WellPlaced(calls[1..][i]) {
          assert calls[1..][i] == calls[i + 1];
        }
      }
      ReplayKeepsInvariant(next, calls[1..]);
    }
  }

  lemma HistoryFromCreation(creator: Address, calls: seq<Call>)
    requires forall i :: 0 <= i < |calls| ==> WellPlaced(calls[i])
    ensures Invariant(Replay(Initialize(creator), calls))
    ensures Replay(Initialize(creator), calls).global.platformFee == 250
  {
    InitializeEstablishes(creator);
    ReplayKeepsInvariant(Initialize(creator), calls);
  }

  // ---------------------------------------------------------------------
  // Sales

  /** A sale between two distinct accounts moves the seller's record to the
      buyer with the price reset to 0, empties the seller's store, and the
      two preceding payments split the price exactly between seller and
      owner. */
  lemma SaleMovesRecord(s: AppState, group: seq<Txn<Address>>, index: nat)
    requires index < |group| && group[index].AppCall?
    requires Invariant(s) && BuyNft(s, group, index).Some?
    requires group[index].sender != group[index].accounts[0]
    ensures var buyer := group[index].sender;
            var seller := group[index].accounts[0];
            var s' := BuyNft(s, group, index).value;
            var l := ListingOf(s.local[seller]);
            && s'.local[buyer] == Entries(l.(price := 0))
            && s'.local[seller] == map[]
            && 0 <= index - 2
            && group[index - 1].Payment? && group[index - 2].Payment?
            && group[index - 1].amount + group[index - 2].amount == l.price
            && group[index - 2].amount == l.price * 250 / 10000
            && group[index - 1].receiver == seller && group[index - 2].receiver == s.global.owner
  {
    var buyer := group[index].sender;
    var seller := group[index].accounts[0];
    assert KeyPurchasable in s.local[seller];
    BoughtStoreIsRecord(s.local[buyer], s.local[seller]);
  }

  /** Buying from oneself passes every check but erases the record. */
  lemma SelfPurchaseErases(s: AppState, group: seq<Txn<Address>>, index: nat)
    requires index < |group| && group[index].AppCall?
    requires Invariant(s) && BuyNft(s, group, index).Some?
    requires group[index].sender == group[index].accounts[0]
    ensures BuyNft(s, group, index).value.local[group[index].sender] == map[]
  {
    var a := group[index].sender;
    assert KeyPurchasable in s.local[a];
    BoughtStoreIsRecord(s.local[a], s.local[a]);
  }

  /** The `creator` key keeps the original minter after a sale, so a buyer
      who did not mint the NFT can neither list, reprice nor delist it. */
  lemma BoughtRecordIsFrozen(s: AppState, group: seq<Txn<Address>>, index: nat, args: seq<Bytes>)
    requires index < |group| && group[index].AppCall?
    requires Invariant(s) && BuyNft(s, group, index).Some?
    requires group[index].sender != group[index].accounts[0]
    requires ListingOf(s.local[group[index].accounts[0]]).creator != group[index].sender
    ensures var s' := BuyNft(s, group, index).value;
            && ListNft(s', group[index].sender, args).None?
            && UpdatePrice(s', group[index].sender, args).None?
            && DelistNft(s', group[index].sender).None?
  {
    SaleMovesRecord(s, group, index);
  }
}
