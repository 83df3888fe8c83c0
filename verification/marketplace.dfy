/** The marketplace view's derived list: a copy of the loaded NFTs,
    narrowed by type, then by a case-insensitive search over name and
    description, then ordered by the selected sort. */
module Marketplace {
  import opened JsText
  import opened Seqs
  import opened NftItem

  const AllTypes: string := "all"
  const PriceLow: string := "price-low"
  const PriceHigh: string := "price-high"
  const Newest: string := "newest"

  /** The search predicate: the lowercased name or description contains
      the lowercased query. */
  predicate Matches(n: Nft, query: string) {
    Includes(Lower(n.name), Lower(query)) || Includes(Lower(n.description), Lower(query))
  }

  /** Whether `n` survives both filters. */
  predicate Selected(n: Nft, filter: string, query: string) {
    (filter == AllTypes || n.kind == filter) && (|query| == 0 || Matches(n, query))
  }

  function ByType(nfts: seq<Nft>, filter: string): seq<Nft> {
    if filter != AllTypes then Filter(nfts, OfKind(filter)) else nfts
  }

  function BySearch(nfts: seq<Nft>, query: string): seq<Nft> {
    if |query| > 0 then Filter(nfts, (n: Nft) => Matches(n, query)) else nfts
  }

  /** The comparator of each sort option as an ascending key; any other
      option leaves the order alone. */
  function Arrange(nfts: seq<Nft>, sortBy: string): seq<Nft> {
    if sortBy == PriceLow then SortBy(nfts, (n: Nft) => n.price)
    else if sortBy == PriceHigh then SortBy(nfts, (n: Nft) => -n.price)
    else if sortBy == Newest then SortBy(nfts, (n: Nft) => -n.id)
    else nfts
  }

  /** The list the view renders. */
  function Visible(nfts: seq<Nft>, filter: string, query: string, sortBy: string): (r: seq<Nft>)
    ensures multiset(r) == multiset(Filter(nfts, (n: Nft) => Selected(n, filter, query)))
    ensures multiset(r) <= multiset(nfts)
    ensures forall n :: n in r <==> n in nfts && Selected(n, filter, query)
    ensures filter != AllTypes ==> forall i :: 0 <= i < |r| ==> r[i].kind == filter
    ensures |query| > 0 ==> forall i :: 0 <= i < |r| ==> Matches(r[i], query)
    ensures filter == AllTypes && |query| == 0 ==> multiset(r) == multiset(nfts)
    ensures sortBy == PriceLow ==> forall i, j :: 0 <= i < j < |r| ==> r[i].price <= r[j].price
    ensures sortBy == PriceHigh ==> forall i, j :: 0 <= i < j < |r| ==> r[i].price >= r[j].price
    ensures sortBy == Newest ==> forall i, j :: 0 <= i < j < |r| ==> r[i].id >= r[j].id
    ensures sortBy != PriceLow && sortBy != PriceHigh && sortBy != Newest ==>
              r == Filter(nfts, (n: Nft) => Selected(n, filter, query))
  {
    var typed := ByType(nfts, filter);
    var found := BySearch(typed, query);
    SelectedIsBothFilters(nfts, filter, query);
    var r := Arrange(found, sortBy);
    FilterSubMultiset(nfts, (n: Nft) => Selected(n, filter, query));
    assert multiset(r) == multiset(found);
    MembersOfMultiset(r, nfts, filter, query);
    UnfilteredKeepsAll(nfts, filter, query);
    r
  }

  lemma UnfilteredKeepsAll(nfts: seq<Nft>, filter: string, query: string)
    ensures filter == AllTypes && |query| == 0 ==> Filter(nfts, (n: Nft) => Selected(n, filter, query)) == nfts
  {
    if filter == AllTypes && |query| == 0 {
      FilterAll(nfts, (n: Nft) => Selected(n, filter, query));
    }
  }

  lemma MembersOfMultiset(r: seq<Nft>, nfts: seq<Nft>, filter: string, query: string)
    requires multiset(r) == multiset(Filter(nfts, (n: Nft) => Selected(n, filter, query)))
    ensures forall i :: 0 <= i < |r| ==> Selected(r[i], filter, query)
    ensures forall n :: n in r <==> n in nfts && Selected(n, filter, query)
  {
    var f := Filter(nfts, (n: Nft) => Selected(n, filter, query));
    FilterSubMultiset(nfts, (n: Nft) => Selected(n, filter, query));
    forall n ensures n in r <==> n in f {
      assert n in r <==> multiset(r)[n] > 0;
      assert n in f <==> multiset(f)[n] > 0;
    }
    forall i | 0 <= i < |r| ensures Selected(r[i], filter, query) {
      assert r[i] in r;
    }
  }

  /** Narrowing by type and then by query is one filter by `Selected`. */
  lemma SelectedIsBothFilters(nfts: seq<Nft>, filter: string, query: string)
    ensures BySearch(ByType(nfts, filter), query) == Filter(nfts, (n: Nft) => Selected(n, filter, query))
  {
    var sel := (n: Nft) => Selected(n, filter, query);
    if filter != AllTypes && |query| > 0 {
      var m := (n: Nft) => Matches(n, query);
      assert BySearch(ByType(nfts, filter), query) == Filter(Filter(nfts, OfKind(filter)), m);
      FilterFilter(nfts, OfKind(filter), m, sel);
    } else if filter != AllTypes {
      assert BySearch(ByType(nfts, filter), query) == Filter(nfts, OfKind(filter));
      FilterCongruent(nfts, OfKind(filter), sel);
    } else if |query| > 0 {
      var m := (n: Nft) => Matches(n, query);
      assert BySearch(ByType(nfts, filter), query) == Filter(nfts, m);
      FilterCongruent(nfts, m, sel);
    } else {
      FilterAll(nfts, sel);
    }
  }
}
