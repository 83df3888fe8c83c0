/** The NFT card: which badges, labels and buttons it shows for an NFT and
    the viewing account, and the purchase request its Buy flow posts. */
module NftCard {
  import opened Wrappers
  import opened JsText
  import opened NftItem
  import Controller
  import Service
  import Algorand
  import Bytes

  const ArtEmoji: string := [0x1F3A8 as char]
  const MusicEmoji: string := [0x1F3B5 as char]
  const GemEmoji: string := [0x1F48E as char]

  const NotListed: string := "Not listed for sale"
  const NotPurchasable: string := "Non-purchasable collectible"

  /** `typeEmojis[nft.type]`: the emoji table; other types have no entry. */
  function TypeEmoji(kind: string): Option<string> {
    if kind == "art" then Some(ArtEmoji)
    else if kind == "music" then Some(MusicEmoji)
    else if kind == "standard" then Some(GemEmoji)
    else None
  }

  /** The image placeholder, `typeEmojis[nft.type] || '💎'`. */
  function Placeholder(kind: string): (e: string)
    ensures e in {ArtEmoji, MusicEmoji, GemEmoji}
    ensures TypeEmoji(kind).None? ==> e == GemEmoji
    ensures TypeEmoji(kind).Some? ==> e == TypeEmoji(kind).value
  {
    TypeEmoji(kind).GetOr(GemEmoji)
  }

  /** The type badge: the emoji (nothing for an unknown type), a space, the
      upper-cased type. */
  function Badge(kind: string): (b: string)
    ensures |b| > |kind|
    ensures b[|b| - |kind|..] == Upper(kind)
    ensures b[|b| - |kind| - 1] == ' '
    ensures TypeEmoji(kind).None? ==> b == " " + Upper(kind)
    ensures TypeEmoji(kind).Some? ==> b[..|b| - |kind| - 1] == TypeEmoji(kind).value
  {
    var e := TypeEmoji(kind).GetOr("");
    SpacedParts(e, Upper(kind));
    e + " " + Upper(kind)
  }

  /** The pieces of `${e} ${u}`. */
  lemma SpacedParts(e: string, u: string)
    ensures |e + " " + u| == |e| + 1 + |u|
    ensures (e + " " + u)[..|e|] == e
    ensures (e + " " + u)[|e|] == ' '
    ensures (e + " " + u)[|e| + 1..] == u
  {
  }

  /** The price block is shown for a purchasable NFT with a positive price. */
  predicate ShowsPrice(n: Nft) { n.purchasable && n.price > 0 }

  /** The "FREE" badge. */
  predicate FreeBadge(n: Nft) { !n.purchasable }

  /** The text shown instead of a price, if any. */
  function PriceLabel(n: Nft): (l: Option<string>)
    ensures l.None? <==> ShowsPrice(n)
    ensures l.Some? ==> (l.value == NotPurchasable <==> FreeBadge(n))
    ensures l.Some? ==> (l.value == NotListed <==> n.purchasable)
  {
    if ShowsPrice(n) then None
    else if n.purchasable then Some(NotListed)
    else Some(NotPurchasable)
  }

  /** The Buy button: shown with the price, when actions are enabled, to a
      connected account other than the creator. */
  predicate BuyVisible(n: Nft, account: Option<string>, showActions: bool) {
    ShowsPrice(n) && showActions && TruthyStr(account) && account.value != n.creator
  }

  /** The body posted to the buy endpoint. */
  function BuyRequestOf(n: Nft, account: Option<string>): (q: Controller.BuyRequest)
    ensures q.buyer == account && q.seller == Some(n.creator) && q.price == Some(n.price)
  {
    Controller.BuyRequest(account, Some(n.creator), Some(n.price))
  }

  /** The creator line: first six characters, "...", last four. */
  function CreatorLabel(n: Nft): (s: string)
    ensures |s| == Min(6, |n.creator|) + 3 + Min(4, |n.creator|)
    ensures |s| <= 13 && (|s| == 13 <==> |n.creator| >= 6)
    ensures s[..Min(6, |n.creator|)] == n.creator[..Min(6, |n.creator|)]
    ensures s[Min(6, |n.creator|)..Min(6, |n.creator|) + 3] == "..."
    ensures s[Min(6, |n.creator|) + 3..] == n.creator[|n.creator| - Min(4, |n.creator|)..]
  {
    Abbreviate(n.creator)
  }

  /** A creator is never offered their own NFT, and a free NFT is never
      offered at all. */
  lemma NoBuyForCreatorOrFree(n: Nft, account: Option<string>, showActions: bool)
    ensures account == Some(n.creator) ==> !BuyVisible(n, account, showActions)
    ensures FreeBadge(n) ==> !BuyVisible(n, account, showActions) && PriceLabel(n) == Some(NotPurchasable)
    ensures BuyVisible(n, account, showActions) ==> PriceLabel(n).None? && !FreeBadge(n)
  {
  }

  /** When the Buy button is shown, the request it posts passes the buy
      endpoint's field checks unless the NFT's creator is empty; then the
      endpoint answers 400. */
  lemma VisibleBuyPassesValidation(cfg: Service.Config, n: Nft, account: Option<string>, feeEnv: Option<string>,
                                   net: Result<Service.Params, string>, groupIdOf: seq<Algorand.Txn<string>> -> Bytes.Bytes)
    requires BuyVisible(n, account, true)
    ensures Controller.BuyNft(cfg, BuyRequestOf(n, account), feeEnv, net, groupIdOf).BadRequest? <==> n.creator == ""
  {
  }
}
