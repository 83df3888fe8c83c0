/** The NFT record the front end lists, filters and renders. Prices are in
    microAlgos. */
module NftItem {

  datatype Nft = Nft(id: int, name: string, kind: string, creator: string, price: int,
                     purchasable: bool, description: string, imageUrl: string)

  /** `nft => nft.type === k` */
  function OfKind(k: string): Nft -> bool {
    (n: Nft) => n.kind == k
  }
}
