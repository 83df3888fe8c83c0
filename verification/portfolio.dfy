/** The portfolio view's statistics and its two tab lists. */
module Portfolio {
  import opened Wrappers
  import opened Seqs
  import opened NftItem

  datatype Stats = Stats(totalNfts: nat, artNfts: nat, musicNfts: nat, standardNfts: nat, totalValue: int)

  /** `reduce((sum, nft) => sum + nft.price, 0)` */
  function TotalValue(nfts: seq<Nft>): int {
    SumBy(nfts, (n: Nft) => n.price)
  }

  /** The five figures shown on the stats cards. */
  function ComputeStats(nfts: seq<Nft>): (s: Stats)
    ensures s.totalNfts == |nfts|
    ensures s.artNfts == Count(nfts, OfKind("art"))
    ensures s.musicNfts == Count(nfts, OfKind("music"))
    ensures s.standardNfts == Count(nfts, OfKind("standard"))
    ensures s.artNfts + s.musicNfts + s.standardNfts <= s.totalNfts
    ensures (forall i :: 0 <= i < |nfts| ==> nfts[i].kind in {"art", "music", "standard"}) ==>
              s.artNfts + s.musicNfts + s.standardNfts == s.totalNfts
    ensures nfts == [] ==> s.totalValue == 0
    ensures (forall i :: 0 <= i < |nfts| ==> nfts[i].price >= 0) ==> s.totalValue >= 0
  {
    KindCounts(nfts);
    ValueNonNegative(nfts);
    Stats(|nfts|, Count(nfts, OfKind("art")), Count(nfts, OfKind("music")),
          Count(nfts, OfKind("standard")), TotalValue(nfts))
  }

  lemma ValueNonNegative(nfts: seq<Nft>)
    ensures (forall i :: 0 <= i < |nfts| ==> nfts[i].price >= 0) ==> TotalValue(nfts) >= 0
  {
    if forall i :: 0 <= i < |nfts| ==> nfts[i].price >= 0 {
      SumByNonNegative(nfts, (n: Nft) => n.price);
    }
  }

  /** The three type counts never exceed the total, and fill it exactly when
      every item has one of the three types. */
  lemma KindCounts(nfts: seq<Nft>)
    ensures Count(nfts, OfKind("art")) + Count(nfts, OfKind("music")) + Count(nfts, OfKind("standard")) <= |nfts|
    ensures (forall i :: 0 <= i < |nfts| ==> nfts[i].kind in {"art", "music", "standard"}) ==>
              Count(nfts, OfKind("art")) + Count(nfts, OfKind("music")) + Count(nfts, OfKind("standard")) == |nfts|
  {
    var am := (n: Nft) => n.kind == "art" || n.kind == "music";
    var all := (n: Nft) => n.kind == "art" || n.kind == "music" || n.kind == "standard";
    CountDisjoint(nfts, OfKind("art"), OfKind("music"), am);
    CountDisjoint(nfts, am, OfKind("standard"), all);
    if forall i :: 0 <= i < |nfts| ==> nfts[i].kind in {"art", "music", "standard"} {
      FilterAll(nfts, all);
    }
  }

  /** The value of two lists together is the sum of their values. */
  lemma TotalValueAppend(a: seq<Nft>, b: seq<Nft>)
    ensures TotalValue(a + b) == TotalValue(a) + TotalValue(b)
  {
    SumByAppend(a, b, (n: Nft) => n.price);
  }

  /** `nft.creator === account`; a disconnected account matches nothing. */
  predicate CreatedBy(n: Nft, account: Option<string>) {
    account.Some? && n.creator == account.value
  }

  /** `createdNfts` */
  function CreatedNfts(nfts: seq<Nft>, account: Option<string>): (r: seq<Nft>)
    ensures forall n :: n in r <==> n in nfts && CreatedBy(n, account)
    ensures multiset(r) <= multiset(nfts)
  {
    FilterSubMultiset(nfts, (n: Nft) => CreatedBy(n, account));
    Filter(nfts, (n: Nft) => CreatedBy(n, account))
  }

  /** `ownedNfts`: everything on the "owned" tab, else only the account's
      own creations. */
  function OwnedNfts(nfts: seq<Nft>, account: Option<string>, tab: string): (r: seq<Nft>)
    ensures tab == "owned" ==> r == nfts
    ensures tab != "owned" ==> r == CreatedNfts(nfts, account)
  {
    var keep := (n: Nft) => CreatedBy(n, account) || tab == "owned";
    OwnedTabs(nfts, account, tab, keep);
    Filter(nfts, keep)
  }

  lemma OwnedTabs(nfts: seq<Nft>, account: Option<string>, tab: string, keep: Nft -> bool)
    requires forall i :: 0 <= i < |nfts| ==> keep(nfts[i]) == (CreatedBy(nfts[i], account) || tab == "owned")
    ensures tab == "owned" ==> Filter(nfts, keep) == nfts
    ensures tab != "owned" ==> Filter(nfts, keep) == CreatedNfts(nfts, account)
  {
    if tab == "owned" {
      FilterAll(nfts, keep);
    } else {
      FilterCongruent(nfts, keep, (n: Nft) => CreatedBy(n, account));
    }
  }

  /** Whatever the tab, every created item is also listed as owned. */
  lemma CreatedWithinOwned(nfts: seq<Nft>, account: Option<string>, tab: string)
    ensures multiset(CreatedNfts(nfts, account)) <= multiset(OwnedNfts(nfts, account, tab))
  {
    if tab == "owned" {
      FilterSubMultiset(nfts, (n: Nft) => CreatedBy(n, account));
    }
  }
}
