/** The parameter construction of the web client (client/src/utils.ts): the
    `Category` enum, `toCategory`, and the object `encodeAssets` builds
    before handing it to the ABI encoder. A thrown exception is an `Err`
    carrying the thrown string. */
module ClientUtils {
  import opened Results

  /** The TypeScript enum `Category`. */
  datatype Category = ERC20 | ERC721 | ERC1155 | CryptoKitties

  /** The contract-type string each category is written as. */
  function CategoryName(c: Category): string
  {
    match c
    case ERC20 => "ERC20"
    case ERC721 => "ERC721"
    case ERC1155 => "ERC1155"
    case CryptoKitties => "CRYPTOKITTIES"
  }

  /** The strings `toCategory` accepts. */
  const CategoryNames: set<string> := {"ERC20", "ERC721", "ERC1155", "CRYPTOKITTIES"}

  /** What `toCategory` throws for a string it does not know. */
  function InvalidCategory(s: string): string
  {
    "Invalid category name: " + s
  }

  /** `toCategory`: exact, case-sensitive match of the four names; anything
      else throws. */
  function ToCategory(s: string): (r: Result<Category, string>)
    ensures r.Ok? <==> s in CategoryNames
    ensures r.Ok? ==> CategoryName(r.value) == s
    ensures r.Err? ==> r.error == InvalidCategory(s)
  {
    match s
    case "ERC20" => Ok(ERC20)
    case "ERC721" => Ok(ERC721)
    case "ERC1155" => Ok(ERC1155)
    case "CRYPTOKITTIES" => Ok(CryptoKitties)
    case _ => Err(InvalidCategory(s))
  }

  /** `CategoryName` is a right inverse of `toCategory`: every category is
      reached, from its own name. */
  lemma CategoryRoundTrip(c: Category)
    ensures ToCategory(CategoryName(c)) == Ok(c)
  {
  }

  /** Distinct accepted strings give distinct categories. */
  lemma ToCategoryInjective(s1: string, s2: string)
    requires ToCategory(s1).Ok? && ToCategory(s2).Ok?
    requires ToCategory(s1) == ToCategory(s2)
    ensures s1 == s2
  {
  }

  /** Matching is case-sensitive and takes the upper-case spelling of
      CryptoKitties only. */
  lemma ToCategoryExamples()
    ensures ToCategory("erc20") == Err("Invalid category name: erc20")
    ensures ToCategory("CryptoKitties").Err?
    ensures ToCategory("").Err?
  {
    assert InvalidCategory("erc20") == "Invalid category name: erc20";
  }

  /** The fields of the client's `NFT` type that `encodeAssets` reads. */
  datatype Nft = Nft(tokenId: int, tokenAddress: string, contractType: string)

  /** One entry of the parameter object. */
  datatype Param = Param(category: Category, address: string, id: int, amount: int)

  /** `Object.entries` of the token map: (contract address, amount) pairs, in
      the object's enumeration order. */
  type TokenEntries = seq<(string, int)>

  /** `Object.entries` of the NFT map: (key, NFT) pairs; the key is unused. */
  type NftEntries = seq<(string, Nft)>

  /** The entry for a wrapped token amount. */
  function TokenParam(e: (string, int)): Param
  {
    Param(ERC20, e.0, 0, e.1)
  }

  /** The entry for a wrapped NFT, given its category. */
  function NftParam(n: Nft, c: Category): Param
  {
    Param(c, n.tokenAddress, n.tokenId, 0)
  }

  /** The first map callback over the token entries. */
  function TokenParams(tokens: TokenEntries): (ps: seq<Param>)
    ensures |ps| == |tokens|
    ensures forall i :: 0 <= i < |tokens| ==>
      ps[i].category == ERC20 && ps[i].id == 0
      && ps[i].address == tokens[i].0 && ps[i].amount == tokens[i].1
  {
    seq(|tokens|, i requires 0 <= i < |tokens| => TokenParam(tokens[i]))
  }

  /** Every NFT entry's contract type is one `toCategory` accepts. */
  predicate AllCategorised(nfts: NftEntries)
  {
    forall i :: 0 <= i < |nfts| ==> nfts[i].1.contractType in CategoryNames
  }

  /** The position of the first NFT whose contract type `toCategory` rejects. */
  predicate FirstUncategorised(nfts: NftEntries, k: int)
  {
    && 0 <= k < |nfts|
    && nfts[k].1.contractType !in CategoryNames
    && forall j :: 0 <= j < k ==> nfts[j].1.contractType in CategoryNames
  }

  /** The second map callback, run left to right: the first unrecognised
      contract type throws and abandons the whole call. */
  function NftParams(nfts: NftEntries): (r: Result<seq<Param>, string>)
    ensures r.Ok? <==> AllCategorised(nfts)
    ensures r.Ok? ==> |r.value| == |nfts|
    ensures r.Ok? ==> forall i :: 0 <= i < |nfts| ==>
      && r.value[i].category == ToCategory(nfts[i].1.contractType).value
      && r.value[i].address == nfts[i].1.tokenAddress
      && r.value[i].id == nfts[i].1.tokenId
      && r.value[i].amount == 0
    ensures r.Err? ==> exists k :: FirstUncategorised(nfts, k)
                                   && r.error == InvalidCategory(nfts[k].1.contractType)
  {
    if |nfts| == 0 then Ok([])
    else
      match ToCategory(nfts[0].1.contractType)
      case Err(e) =>
        assert FirstUncategorised(nfts, 0);
        Err(e)
      case Ok(c) =>
        match NftParams(nfts[1..])
        case Err(e) =>
          var k :| FirstUncategorised(nfts[1..], k) && e == InvalidCategory(nfts[1..][k].1.contractType);
          assert FirstUncategorised(nfts, k + 1);
          Err(e)
        case Ok(rest) =>
          assert forall i :: 1 <= i < |nfts| ==> nfts[i] == nfts[1..][i - 1];
          Ok([NftParam(nfts[0].1, c)] + rest)
  }

  /** The keys `0 .. n-1` of an array spread into an object. */
  function Indices(n: nat): (r: set<nat>)
    ensures forall i: nat :: i in r <==> i < n
  {
    if n == 0 then {} else Indices(n - 1) + {n - 1}
  }

  /** The object spread `{...obj, ...arr}`: the array's indices become keys
      and overwrite keys already present. */
  function Spread(obj: map<nat, Param>, arr: seq<Param>): (m: map<nat, Param>)
    ensures m.Keys == obj.Keys + Indices(|arr|)
    ensures forall i :: 0 <= i < |arr| ==> m[i] == arr[i]
    ensures forall k :: k in obj && k >= |arr| ==> m[k] == obj[k]
  {
    obj + map i: nat | i < |arr| :: arr[i]
  }

  function Max(a: nat, b: nat): nat
  {
    if a < b then b else a
  }

  /** The parameter-building part of `encodeAssets`: both mapped arrays are
      spread into one object, tokens first. Key `i` holds the i-th NFT entry
      when there is one and the i-th token entry otherwise. */
  function EncodeParams(tokens: TokenEntries, nfts: NftEntries): (r: Result<map<nat, Param>, string>)
    ensures r.Ok? <==> AllCategorised(nfts)
    ensures r.Ok? ==> r.value.Keys == Indices(Max(|tokens|, |nfts|))
    ensures r.Ok? ==> forall i :: 0 <= i < |nfts| ==>
      r.value[i] == NftParam(nfts[i].1, ToCategory(nfts[i].1.contractType).value)
    ensures r.Ok? ==> forall i :: |nfts| <= i < |tokens| ==> r.value[i] == TokenParam(tokens[i])
    ensures r.Err? ==> exists k :: FirstUncategorised(nfts, k)
                                   && r.error == InvalidCategory(nfts[k].1.contractType)
  {
    var tokenParams := TokenParams(tokens);
    match NftParams(nfts)
    case Err(e) => Err(e)
    case Ok(nftParams) =>
      var base := Spread(map[], tokenParams);
      var m := Spread(base, nftParams);
      assert base.Keys == Indices(|tokens|);
      assert m.Keys == Indices(Max(|tokens|, |nfts|)) by {
        forall k: nat ensures k in m.Keys <==> k in Indices(Max(|tokens|, |nfts|)) {
        }
      }
      Ok(m)
  }

  /** The object `{0: x, ..., n-1: y}` has n keys. */
  lemma {:induction false} IndexKeysCount(n: nat)
    ensures |Indices(n)| == n
  {
    if n > 0 {
      IndexKeysCount(n - 1);
      assert n - 1 !in Indices(n - 1);
    }
  }

  /** The object holds `max(|tokens|, |nfts|)` entries, so when both maps are
      non-empty fewer entries come out than went in. */
  lemma EncodeParamsDropsEntries(tokens: TokenEntries, nfts: NftEntries)
    requires AllCategorised(nfts)
    ensures |EncodeParams(tokens, nfts).value| == Max(|tokens|, |nfts|)
    ensures |tokens| > 0 && |nfts| > 0 ==>
      |EncodeParams(tokens, nfts).value| < |tokens| + |nfts|
  {
    IndexKeysCount(Max(|tokens|, |nfts|));
  }

  /** One token and one NFT: the NFT entry overwrites the token entry at
      key 0 and the token amount is lost. */
  lemma EncodeParamsOverwriteExample()
    ensures EncodeParams([("0xaa", 5)], [("1", Nft(7, "0xbb", "ERC721"))])
         == Ok(map[0 := Param(ERC721, "0xbb", 7, 0)])
  {
    var r := EncodeParams([("0xaa", 5)], [("1", Nft(7, "0xbb", "ERC721"))]);
    assert AllCategorised([("1", Nft(7, "0xbb", "ERC721"))]);
    assert ToCategory("ERC721") == Ok(ERC721);
    assert r.value.Keys == {0} by {
      assert Indices(1) == Indices(0) + {0};
    }
    assert r.value[0] == Param(ERC721, "0xbb", 7, 0);
    assert r.value == map[0 := Param(ERC721, "0xbb", 7, 0)];
  }

  /** One entry per token and per NFT, tokens first: the list the
      parameter object evidently stands for (`[...tokens, ...nfts]`). */
  function EncodeParamsIntended(tokens: TokenEntries, nfts: NftEntries): (r: Result<seq<Param>, string>)
    ensures r.Ok? <==> AllCategorised(nfts)
    ensures r.Ok? ==> |r.value| == |tokens| + |nfts|
    ensures r.Ok? ==> forall i :: 0 <= i < |tokens| ==> r.value[i] == TokenParam(tokens[i])
    ensures r.Ok? ==> forall i :: 0 <= i < |nfts| ==>
      r.value[|tokens| + i] == NftParam(nfts[i].1, ToCategory(nfts[i].1.contractType).value)
    ensures r.Err? ==> exists k :: FirstUncategorised(nfts, k)
                                   && r.error == InvalidCategory(nfts[k].1.contractType)
  {
    match NftParams(nfts)
    case Err(e) => Err(e)
    case Ok(nftParams) => Ok(TokenParams(tokens) + nftParams)
  }

  /** The intended list keeps every token entry and every NFT entry. */
  lemma IntendedKeepsEveryEntry(tokens: TokenEntries, nfts: NftEntries)
    requires AllCategorised(nfts)
    ensures var ps := EncodeParamsIntended(tokens, nfts).value;
      && (forall i :: 0 <= i < |tokens| ==> TokenParam(tokens[i]) in ps)
      && (forall i :: 0 <= i < |nfts| ==>
            NftParam(nfts[i].1, ToCategory(nfts[i].1.contractType).value) in ps)
  {
    var ps := EncodeParamsIntended(tokens, nfts).value;
    forall i | 0 <= i < |nfts|
      ensures NftParam(nfts[i].1, ToCategory(nfts[i].1.contractType).value) in ps
    {
      assert ps[|tokens| + i] == NftParam(nfts[i].1, ToCategory(nfts[i].1.contractType).value);
    }
  }

  /** When only one of the two maps has entries nothing is overwritten: the
      object holds, key by key, exactly the corrected list. */
  lemma {:induction false} EncodeParamsAgreesWithoutOverlap(tokens: TokenEntries, nfts: NftEntries)
    requires AllCategorised(nfts)
    requires |tokens| == 0 || |nfts| == 0
    ensures var obj := EncodeParams(tokens, nfts).value;
      var ps := EncodeParamsIntended(tokens, nfts).value;
      obj.Keys == Indices(|ps|) && forall i :: 0 <= i < |ps| ==> obj[i] == ps[i]
  {
    var obj := EncodeParams(tokens, nfts).value;
    var ps := EncodeParamsIntended(tokens, nfts).value;
    if |tokens| == 0 {
      forall i | 0 <= i < |ps| ensures obj[i] == ps[i] {
        assert ps[0 + i] == ps[i];
      }
    }
  }
}
