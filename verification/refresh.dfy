/** `refreshAssets` (cmd/api/main.go) as a pure transition over the cache
    table. The transaction, the two upstream fetches, serialisation, the
    insert and the commit are outside the model; what each of them answers
    is given as an `Oracle`. */
module Refresh {
  import opened Results
  import opened Assets
  import opened Store
  import opened Effects

  /** Why an upstream fetch fails: building the request, the transport, or
      decoding the JSON body. */
  datatype FetchError = BadRequestUrl | Transport | Decode

  /** What the outside world answers during one refresh. */
  datatype Oracle = Oracle(
    begin: bool,                             // BeginTx succeeds
    nfts: Result<seq<Nft>, FetchError>,      // fetchNFTs
    tokens: Result<seq<Token>, FetchError>,  // fetchTokens
    marshal: bool,                           // json.Marshal succeeds
    insert: bool,                            // tx.Exec(INSERT ...) succeeds
    commit: bool)                            // tx.Commit succeeds
  {
    /** Every step of a refresh succeeds. */
    predicate AllSucceed() {
      begin && nfts.Ok? && tokens.Ok? && marshal && insert && commit
    }
  }

  /** The error a refresh returns, naming the step that failed. */
  datatype RefreshError =
    | BeginFailed
    | FetchNftsFailed(cause: FetchError)
    | FetchTokensFailed(cause: FetchError)
    | MarshalFailed
    | InsertFailed
    | CommitFailed

  /** The result of one refresh: the table afterwards, the error if any,
      and the interactions performed. */
  datatype Run = Run(table: Table, err: Option<RefreshError>, effects: seq<Effect>)

  /** The steps after `BeginTx`, before the deferred `Rollback`. A failed
      step ends the transaction without writing: only `Commit` makes the
      inserted row part of the table. */
  function InTransaction(t: Table, chain: string, address: string, o: Oracle)
    : (r: (Table, Option<RefreshError>, seq<Effect>))
  {
    var fetchNfts := [FetchNfts(chain, address)];
    if o.nfts.Err? then (t, Some(FetchNftsFailed(o.nfts.error)), fetchNfts)
    else
      var fetched := fetchNfts + [FetchTokens(chain, address)];
      if o.tokens.Err? then (t, Some(FetchTokensFailed(o.tokens.error)), fetched)
      else if !o.marshal then (t, Some(MarshalFailed), fetched)
      else
        var row := Row(chain, address, Bundle(o.tokens.value, o.nfts.value));
        var inserted := fetched + [Insert(row)];
        if !o.insert then (t, Some(InsertFailed), inserted)
        else if !o.commit then (t, Some(CommitFailed), inserted + [Commit])
        else (t + [row], None, inserted + [Commit])
  }

  /** `refreshAssets`: open a transaction, fetch NFTs then tokens, insert one
      row holding both, commit. Every run starts by contacting the database
      to open the transaction; the deferred rollback runs whenever the
      transaction was opened, and after a commit it is a no-op. */
  function RefreshAssets(t: Table, chain: string, address: string, o: Oracle): (run: Run)
    ensures run.err.None? <==> o.AllSucceed()
    ensures run.err.None? ==>
      run.table == t + [Row(chain, address, Bundle(o.tokens.value, o.nfts.value))]
    ensures run.err.Some? ==> run.table == t
    ensures o.begin && o.nfts.Err? ==> run.err == Some(FetchNftsFailed(o.nfts.error))
    ensures FetchTokens(chain, address) in run.effects <==> o.begin && o.nfts.Ok?
    ensures FetchNfts(chain, address) in run.effects <==> o.begin
    ensures |run.effects| >= 1 && run.effects[0] == BeginTx
    ensures o.begin <==> run.effects[|run.effects| - 1] == Rollback
  {
    if !o.begin then Run(t, Some(BeginFailed), [BeginTx])
    else
      var (t', err, steps) := InTransaction(t, chain, address, o);
      Run(t', err, [BeginTx] + steps + [Rollback])
  }

  /** The NFT fetch happens first: whenever tokens are fetched, NFTs were
      fetched at an earlier position of the same run. */
  lemma NftsFetchedBeforeTokens(t: Table, chain: string, address: string, o: Oracle)
    ensures var e := RefreshAssets(t, chain, address, o).effects;
      forall j :: 0 <= j < |e| && e[j] == FetchTokens(chain, address) ==>
        exists i :: 0 <= i < j && e[i] == FetchNfts(chain, address)
  {
    var e := RefreshAssets(t, chain, address, o).effects;
    if o.begin && o.nfts.Ok? {
      assert e[1] == FetchNfts(chain, address);
      forall j | 0 <= j < |e| && e[j] == FetchTokens(chain, address)
        ensures exists i :: 0 <= i < j && e[i] == FetchNfts(chain, address)
      {
        assert j != 0 && j != 1;
      }
    }
  }

  /** A successful refresh keeps every earlier row in place, adds exactly
      one row for its own key and none for any other key. */
  lemma RefreshAppendsOneRow(t: Table, chain: string, address: string, o: Oracle,
                              c: string, a: string)
    requires o.AllSucceed()
    ensures var t' := RefreshAssets(t, chain, address, o).table;
      && |t'| == |t| + 1
      && t' [..|t|] == t
      && CountRows(t', c, a) == CountRows(t, c, a) + (if c == chain && a == address then 1 else 0)
  {
    var row := Row(chain, address, Bundle(o.tokens.value, o.nfts.value));
    assert (t + [row])[..|t|] == t;
    CountRowsAppend(t, row, c, a);
  }

  /** Refresh is not idempotent: the table is insert-only, so repeating a
      successful refresh adds a second row for the same key. */
  lemma RefreshIsNotIdempotent(t: Table, chain: string, address: string, o: Oracle)
    requires o.AllSucceed()
    ensures var once := RefreshAssets(t, chain, address, o).table;
      var twice := RefreshAssets(once, chain, address, o).table;
      && CountRows(twice, chain, address) == CountRows(t, chain, address) + 2
      && twice != once
  {
    var once := RefreshAssets(t, chain, address, o).table;
    RefreshAppendsOneRow(t, chain, address, o, chain, address);
    RefreshAppendsOneRow(once, chain, address, o, chain, address);
  }

  /** A refresh of a key that had no row makes the lookup answer exactly the
      bundle of the two fetches. */
  lemma FirstRefreshIsLookedUp(t: Table, chain: string, address: string, o: Oracle)
    requires o.AllSucceed()
    requires CountRows(t, chain, address) == 0
    ensures Lookup(RefreshAssets(t, chain, address, o).table, chain, address, false)
         == Ok(Bundle(o.tokens.value, o.nfts.value))
  {
    CountZeroIffNoRow(t, chain, address);
    var t' := RefreshAssets(t, chain, address, o).table;
    var i := FirstMatch(t', chain, address);
    assert t'[|t|].Matches(chain, address);
    assert i.Some?;
    assert i.value == |t|;
  }

  /** A refresh does not replace what is cached: when the key already owns a
      row, the lookup after a further refresh answers what it answered
      before. */
  lemma RefreshDoesNotReplaceCachedBundle(t: Table, chain: string, address: string, o: Oracle)
    requires CountRows(t, chain, address) > 0
    ensures Lookup(RefreshAssets(t, chain, address, o).table, chain, address, false)
         == Lookup(t, chain, address, false)
  {
    CountZeroIffNoRow(t, chain, address);
    var run := RefreshAssets(t, chain, address, o);
    if run.err.None? {
      var t' := run.table;
      var i := FirstMatch(t, chain, address);
      var i' := FirstMatch(t', chain, address);
      assert t'[i.value] == t[i.value];
      assert i'.value == i.value;
    }
  }

  /** As written, the read that follows a successful refresh always fails:
      the key now owns a row, and scanning it into a non-pointer errors. */
  lemma AsWrittenLookupFailsAfterRefresh(t: Table, chain: string, address: string, o: Oracle)
    requires o.AllSucceed()
    ensures LookupAsWritten(RefreshAssets(t, chain, address, o).table, chain, address, false)
         == Err(ScanFailed)
  {
    RefreshAppendsOneRow(t, chain, address, o, chain, address);
    LookupAsWrittenFailsOnCachedKey(RefreshAssets(t, chain, address, o).table, chain, address);
  }
}
