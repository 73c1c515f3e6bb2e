/** The records the server fetches from the indexing API and caches
    (cmd/api/main.go, `Token`, `NFT`, `Assets`). Nothing in the server
    computes on their fields; they are carried through unchanged. */
module Assets {
  import opened Results

  /** A fungible-token balance. `logo` and `thumbnail` are nullable
      pointers in the source; the balance is a decimal string. */
  datatype Token = Token(
    tokenAddress: string,
    symbol: string,
    name: string,
    logo: Option<string>,
    thumbnail: Option<string>,
    decimals: nat,
    balance: string,
    possibleSpam: bool,
    verifiedContract: bool)

  /** A synchronisation instant, kept opaque (a `time.Time` in the source). */
  type Instant = int

  /** A non-fungible token. The token id is a decimal string, as requested
      from the API, and may exceed any machine integer. */
  datatype Nft = Nft(
    tokenId: string,
    tokenAddress: string,
    contractType: string,
    lastMetadataSync: Instant,
    lastTokenUriSync: Instant,
    name: string,
    symbol: string,
    tokenHash: string,
    tokenUri: string,
    verifiedCollection: bool,
    possibleSpam: bool,
    collectionLogo: string,
    collectionBannerImage: string)

  /** Everything cached for one (chain, address) pair. */
  datatype Bundle = Bundle(tokens: seq<Token>, nfts: seq<Nft>)

  /** What a lookup answers when nothing is cached: the zero `Assets`. */
  const EmptyBundle := Bundle([], [])
}
