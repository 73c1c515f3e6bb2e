# pwn asset proxy — a Dafny model of its validation, cache and parameter logic

The repository is a small HTTP service that proxies ERC20-token and NFT
queries for one (chain, address) pair to an indexing API and caches the
combined result in an SQLite table, plus a web client that turns a user's
selection of tokens and NFTs into parameters for a token-bundler contract.
This project models the parts of it that are logic rather than plumbing:

- **Validation** (`validation.dfy`): `isHexCharacter`, `isHex`,
  `validateChain` and `validateAddress` as pure predicates over strings.
  A rejection carries the 400 status and the message the validator writes.
- **Cache table** (`assets.dfy`, `store.dfy`): the `assets` table as an
  immutable sequence of `(chain, address, bundle)` rows in insertion order,
  and the lookup `dbFetchAssets`, both as written and corrected (see
  Findings).
- **Refresh** (`refresh.dfy`): `refreshAssets` as a pure transition over the
  table. What the outside world answers (opening the transaction, the NFT
  and token fetches, serialisation, the insert, the commit) is one `Oracle`
  value. The run records its interactions with the outside world in order,
  so "NFTs before tokens" and "no I/O before validation" can be stated.
- **Handlers** (`handlers.dfy`): `assetsHandler` (as written, on the
  as-written lookup, and corrected) and `refreshHandler`, with the path
  parameters passed in directly. Also the route patterns as registered,
  whose wildcard name does not match the one the handlers read (see
  Findings). The interactions a request has with the database and the
  indexing API are recorded in order (`effects.dfy`).
- **Client parameters** (`client_utils.dfy`): the `Category` enum,
  `toCategory`, and the object `encodeAssets` builds by spreading the mapped
  token entries and NFT entries into one object literal.

A Go `string` is modelled as `seq<char>`. The validators give the same
verdicts on bytes and on characters: every accepted character is a one-byte
ASCII character, and a string holding a non-ASCII character is rejected
either way. A thrown TypeScript exception and a Go `error` return are both a
`Result.Err`.

The bare address `"0x"` is accepted, because `isHex("")` is true
(`Validation.AcceptedAddressExamples`).

## Model

| member | source | states |
|---|---|---|
| Validation.IsHexCharacter | cmd/api/main.go:191-193 | a character passes exactly when it is one of the 22 hex digits `0-9a-fA-F` |
| Validation.AllHexCharacters | cmd/api/main.go:200-206 | the byte loop succeeds exactly when every character of the string is a hex digit |
| Validation.IsHex | cmd/api/main.go:195-207 | an odd-length string is never hex, whatever its characters; a string is hex iff its length is even and every character is a hex digit, so the empty string is hex |
| Validation.ValidateChain | cmd/api/main.go:179-189 | accepts exactly the allow-list {"eth", "sepolia"}; any other value, "" included, is rejected with status 400 and a message that starts with the value |
| Validation.ValidateAddress | cmd/api/main.go:209-218 | accepts iff the address is the exact prefix "0x" followed by a hex payload; a rejection has status 400 and a message that starts with the address |
| Validation.ValidateAddressIsShape | cmd/api/main.go:209-218 | acceptance is equivalent to a position-by-position shape: even length of at least 2, '0' then lower-case 'x', hex digits everywhere after |
| Validation.AcceptedAddressExamples | cmd/api/main.go:195-218 | "" is hex, so the bare "0x" is accepted; "0x1234" and mixed-case "0xAbCd" are accepted |
| Validation.RejectedAddressExamples | cmd/api/main.go:209-218 | "0x123" (odd payload), "0X12" (upper-case X) and "" are rejected |
| Validation.ChainExamples | cmd/api/main.go:179-189 | "eth" and "sepolia" pass; "", "polygon" and "ETH" fail |
| Store.FirstMatch | cmd/api/main.go:221-223 | the row the single-row query reads: absent iff no row has the key; otherwise a row with the key and no earlier row with it |
| Store.LookupAsWritten | cmd/api/main.go:220-242 | as written: a query error fails; otherwise the lookup succeeds iff the key has no row, and then answers the empty bundle |
| Store.Lookup | cmd/api/main.go:220-242 | corrected lookup: fails only when the query fails; a missing key gives the empty bundle; otherwise the bundle of a row with that key |
| Store.MissingKeyGivesEmptyBundle | cmd/api/main.go:226-229 | a key with no rows gives the empty bundle and no error, in both the as-written and the corrected lookup |
| Store.LookupAsWrittenFailsOnCachedKey | cmd/api/main.go:225-233 | as written, any key that owns a row makes the lookup fail with a scan error |
| Store.CountRowsAppend | cmd/api/main.go:314-324 | appending a row adds one to its own key's row count and nothing to any other key's |
| Refresh.RefreshAssets | cmd/api/main.go:285-335 | succeeds iff every step succeeds, and then appends exactly the row (chain, address, {tokens, nfts}); any failure leaves the table unchanged; a failed NFT fetch is reported whatever the token fetch would say; tokens are fetched iff the transaction opened and the NFT fetch succeeded; every run starts with the attempt to open the transaction, and the deferred rollback ends a run exactly when the transaction was opened |
| Refresh.NftsFetchedBeforeTokens | cmd/api/main.go:294-302 | in every run, a token fetch is preceded by an NFT fetch for the same key |
| Refresh.RefreshAppendsOneRow | cmd/api/main.go:304-334 | a successful refresh keeps the old table as a prefix, grows it by one row, adds one row to its own key and none to any other key |
| Refresh.RefreshIsNotIdempotent | cmd/api/main.go:314-324 | repeating a successful refresh adds a second row for the key; the table changes again |
| Refresh.FirstRefreshIsLookedUp | cmd/api/main.go:304-324 | after a successful refresh of a key with no row, the corrected lookup answers exactly the fetched tokens and NFTs |
| Refresh.RefreshDoesNotReplaceCachedBundle | cmd/api/main.go:314-324 | when the key already owns a row, a refresh does not change what the corrected lookup answers: insert-only, no replace |
| Refresh.AsWrittenLookupFailsAfterRefresh | cmd/api/main.go:225-233 | as written, the lookup after any successful refresh fails |
| Handlers.Rejection | cmd/api/main.go:258-264 | a request that fails validation gets status 400; the chain message when the chain is bad, otherwise the address message |
| Handlers.AnswerAssets | cmd/api/main.go:258-279 | never changes the table; an invalid request gets the rejection and touches nothing outside; a valid one performs exactly one query, answers 200 with the bundle the lookup found, or 500 "Internal Server Error" when the lookup fails |
| Handlers.AssetsHandler | cmd/api/main.go:244-283 | as written: never changes the table; an invalid request gets the rejection and touches nothing outside; 200 iff the request is valid, the query works and the key owns no row, and then the body is the empty bundle; every other valid request gets 500 "Internal Server Error" |
| Handlers.AssetsHandlerFailsOnCachedKey | cmd/api/main.go:225-233 | as written, a valid read of any key that owns a row answers 500, even with a working query |
| Handlers.FixedAssetsHandler | cmd/api/main.go:244-283 | with the corrected lookup: 200 iff valid and the query works, with the cached bundle as body; a failing query gets 500 "Internal Server Error"; invalid requests as above |
| Handlers.RefreshHandler | cmd/api/main.go:337-371 | an invalid request gets the rejection, leaves the table unchanged and touches nothing outside; a valid one performs exactly the refresh's interactions, so it touches the database or the API iff the request is valid; 200 "OK" iff valid and every refresh step succeeds, and then exactly one row is appended; a valid request whose refresh fails gets 500 "Internal Server Error" and the table is unchanged |
| Handlers.RefreshHandlerKeepsTableValid | cmd/api/main.go:351-359 | every cached row has a chain and an address that pass validation, and refresh requests preserve this |
| Handlers.PathValue | cmd/api/main.go:248-249 | a wildcard the matched pattern does not have reads as the empty string |
| Handlers.ServeAssetsAsWritten | cmd/api/main.go:428 | as registered, a GET of the assets path answers 400 " is not a valid chain name" whatever the segments, with no query and the table unchanged |
| Handlers.ServeRefreshAsWritten | cmd/api/main.go:429 | as registered, a GET of the refresh path answers 400 " is not a valid chain name" whatever the segments and oracle, with no interaction and the table unchanged |
| Handlers.ServeAssets | cmd/api/main.go:428 | with the wildcard named `chain`, the corrected assets handler sees the path segments |
| Handlers.ServeRefresh | cmd/api/main.go:429 | with the wildcard named `chain`, the refresh handler sees the path segments |
| Handlers.RoutedRefreshThenRead | cmd/api/main.go:337-371 | with corrected routes and lookup, a valid refresh of a fresh key followed by a read answers 200 with the fetched bundle |
| ClientUtils.ToCategory | client/src/utils.ts:50-63 | succeeds iff the string is one of "ERC20", "ERC721", "ERC1155", "CRYPTOKITTIES"; the category's name is the input; anything else throws "Invalid category name: " followed by the input |
| ClientUtils.CategoryRoundTrip | client/src/utils.ts:50-59 | every category is produced, from its own name |
| ClientUtils.ToCategoryInjective | client/src/utils.ts:51-59 | distinct accepted strings give distinct categories |
| ClientUtils.ToCategoryExamples | client/src/utils.ts:60-61 | matching is case-sensitive: "erc20" and "CryptoKitties" throw, and so does "" |
| ClientUtils.TokenParams | client/src/utils.ts:74-79 | one entry per token, with category ERC20, id 0, the map key as address and the map value as amount |
| ClientUtils.NftParams | client/src/utils.ts:80-85 | succeeds iff every contract type is recognised; then one entry per NFT with its category, token address, token id and amount 0; otherwise throws for the first unrecognised contract type |
| ClientUtils.Spread | client/src/utils.ts:73-86 | spreading an array into an object adds its indices as keys and overwrites the values already at those keys |
| ClientUtils.EncodeParams | client/src/utils.ts:73-86 | throws iff some NFT's contract type is unrecognised (first one named); otherwise keys are exactly 0 .. max(#tokens, #NFTs)-1, key i holds the i-th NFT entry when there is one, else the i-th token entry |
| ClientUtils.IndexKeysCount | client/src/utils.ts:73-86 | an array of n entries spread into an object gives n keys |
| ClientUtils.EncodeParamsDropsEntries | client/src/utils.ts:73-86 | the object has max(#tokens, #NFTs) entries, so with both non-empty fewer entries come out than went in |
| ClientUtils.EncodeParamsOverwriteExample | client/src/utils.ts:73-86 | one token and one ERC721 NFT give a single entry, the NFT's; the token is lost |
| ClientUtils.EncodeParamsIntended | client/src/utils.ts:73-86 | corrected construction: a list of #tokens + #NFTs entries, the token entries first and then the NFT entries, with the same throw rule |
| ClientUtils.IntendedKeepsEveryEntry | client/src/utils.ts:73-86 | the corrected list contains every token entry and every NFT entry |
| ClientUtils.EncodeParamsAgreesWithoutOverlap | client/src/utils.ts:73-86 | when only tokens or only NFTs are given, nothing is overwritten: the object holds, key by key, exactly the corrected list |

## Left out

- HTTP fetching (`fetchTokens`, `fetchNFTs`): URL formatting, headers, the HTTP client and JSON decoding are replaced by the `Oracle` fields `nfts` and `tokens`, each a sequence or a `FetchError`. NFT pagination is not followed by the source either; only the first page would reach the oracle.
- JSON marshalling and SQL text: rows hold the bundle itself; `json.Marshal` failing is the `marshal` oracle field. Whether `json.Unmarshal` gives back what `json.Marshal` wrote is not modelled; the corrected `Store.Lookup` takes it for granted.
- Database error values and messages: the database appears only through its outcomes; `BeginTx`, the insert and the commit are `Oracle` booleans, and the lookup's query error is `queryFails`.
- Store.Lookup: SQL promises no row order without `ORDER BY`; the model assumes the earliest inserted row (lowest rowid) is the one read, so which of several rows for a key is answered is an assumption of the model, not a promise of the source.
- Cancellation through the request context is not modelled as such: a cancelled context shows up only as a failing query, `BeginTx`, insert or commit, which the `queryFails` parameter and the `Oracle` fields already range over.
- Logging and the response-write error of the JSON encoder are left out; they do not change status, body or table.
- CORS headers, `corsHandler`, CLI flags, `migrateDB`, `runAPI` and `main` are left out as process plumbing. The route patterns are modelled only for their wildcard names (`Handlers.BindPattern`).
- `Token`/`NFT` metadata (timestamps, logo URLs, spam and verification flags) is carried as opaque data; nothing computes on it.
- ClientUtils.EncodeParams takes the two objects as their `Object.entries` sequences; the JavaScript rule for the order in which an object's keys are enumerated is not modelled.
- The numbers behind the TypeScript `Category` enum (0 to 3) are not modelled; a category is a Dafny constructor, and what the ABI encoder makes of it is out of scope.
- `displayValue` is left out: it is floating-point division.
- `encodeAbiParameters`, `getAbiItem`, the ABI JSON and `console.log` are left out: they are library calls on a file that is not part of this model.

## Findings

| source | as written | input that shows it | evidently intended | confidence | as-written member | corrected member |
|---|---|---|---|---|---|---|
| cmd/api/main.go:225-226 | `row.Scan(assetsJSON)` passes the byte slice by value; `database/sql` refuses a non-pointer destination, so every key that owns a row fails to read and the handler answers 500 | any successful refresh of ("eth", "0x12"), then a read of ("eth", "0x12") | scan into `&assetsJSON` and answer the cached bundle | high; not executed | Handlers.AssetsHandlerFailsOnCachedKey | Refresh.FirstRefreshIsLookedUp |
| cmd/api/main.go:428-429 | the patterns name the wildcard `{network}` while both handlers read `PathValue("chain")`, which is "" for a name the pattern lacks, so every request is rejected as an invalid chain | GET /api/assets/eth/0x12 answers 400 " is not a valid chain name" | name the wildcard `{chain}` | high; not executed | Handlers.ServeAssetsAsWritten | Handlers.RoutedRefreshThenRead |
| client/src/utils.ts:73-86 | both mapped arrays are spread into an object literal, so the NFT entries overwrite the token entries with the same index and tokens are lost | one token ("0xaa", 5) and one ERC721 NFT give a single entry, the NFT's | one entry per token and per NFT, as the array `[...tokens, ...nfts]` | medium; not executed | ClientUtils.EncodeParamsOverwriteExample | ClientUtils.IntendedKeepsEveryEntry |
