/** The cache table `assets (chain, address, assets)` as an immutable
    sequence of rows in insertion order, with the lookup `dbFetchAssets`
    (cmd/api/main.go). The blob column holds the serialised bundle; the model
    stores the bundle itself, so JSON encoding is not modelled. */
module Store {
  import opened Results
  import opened Assets

  datatype Row = Row(chain: string, address: string, assets: Bundle) {
    /** The `WHERE chain = $1 AND address = $2` condition. */
    predicate Matches(c: string, a: string) {
      chain == c && address == a
    }
  }

  /** The table: no uniqueness constraint, so a key may own several rows. */
  type Table = seq<Row>

  /** Why a lookup fails. */
  datatype LookupError =
    | QueryFailed   // the query itself reported an error
    | ScanFailed    // `row.Scan` rejected its destination

  /** How many rows the table holds for one key. */
  function CountRows(t: Table, chain: string, address: string): nat
  {
    if |t| == 0 then 0
    else (if t[0].Matches(chain, address) then 1 else 0) + CountRows(t[1..], chain, address)
  }

  /** No row of the table has this key. */
  predicate NoRow(t: Table, chain: string, address: string)
  {
    forall i :: 0 <= i < |t| ==> !t[i].Matches(chain, address)
  }

  /** A key has no row exactly when its count is zero. */
  lemma {:induction false} CountZeroIffNoRow(t: Table, chain: string, address: string)
    ensures CountRows(t, chain, address) == 0 <==> NoRow(t, chain, address)
  {
    if |t| > 0 {
      CountZeroIffNoRow(t[1..], chain, address);
      assert forall i :: 1 <= i < |t| ==> t[i] == t[1..][i - 1];
    }
  }

  /** Appending a row adds one to its own key's count and nothing to any
      other key's. */
  lemma {:induction false} CountRowsAppend(t: Table, r: Row, chain: string, address: string)
    ensures CountRows(t + [r], chain, address)
         == CountRows(t, chain, address) + (if r.Matches(chain, address) then 1 else 0)
  {
    if |t| > 0 {
      assert (t + [r])[1..] == t[1..] + [r];
      CountRowsAppend(t[1..], r, chain, address);
    } else {
      assert (t + [r])[1..] == [];
    }
  }

  /** The position of the first row with this key at or after `from`, in
      insertion order. */
  function FirstMatchFrom(t: Table, chain: string, address: string, from: nat): (r: Option<nat>)
    requires from <= |t|
    ensures r.None? ==> forall i :: from <= i < |t| ==> !t[i].Matches(chain, address)
    ensures r.Some? ==> from <= r.value < |t| && t[r.value].Matches(chain, address)
    ensures r.Some? ==> forall i :: from <= i < r.value ==> !t[i].Matches(chain, address)
    decreases |t| - from
  {
    if from == |t| then None
    else if t[from].Matches(chain, address) then Some(from)
    else FirstMatchFrom(t, chain, address, from + 1)
  }

  /** The position of the earliest row with this key, if any. */
  function FirstMatch(t: Table, chain: string, address: string): (r: Option<nat>)
    ensures r.None? <==> NoRow(t, chain, address)
    ensures r.Some? ==> r.value < |t| && t[r.value].Matches(chain, address)
    ensures r.Some? ==> forall i :: 0 <= i < r.value ==> !t[i].Matches(chain, address)
  {
    FirstMatchFrom(t, chain, address, 0)
  }

  /** `dbFetchAssets` as written. `row.Scan(assetsJSON)` passes the byte
      slice by value, and `database/sql` refuses a destination that is not a
      pointer, so every key that owns a row fails; only a missing row
      (`sql.ErrNoRows`) yields the empty bundle. */
  function LookupAsWritten(t: Table, chain: string, address: string, queryFails: bool)
    : (r: Result<Bundle, LookupError>)
    ensures queryFails ==> r == Err(QueryFailed)
    ensures !queryFails ==> (r.Ok? <==> NoRow(t, chain, address))
    ensures r.Ok? ==> r.value == EmptyBundle
  {
    if queryFails then Err(QueryFailed)
    else match FirstMatch(t, chain, address)
      case None => Ok(EmptyBundle)
      case Some(_) => Err(ScanFailed)
  }

  /** `dbFetchAssets` with the blob scanned through a pointer: the earliest
      row's bundle, or the empty bundle when the key owns no row. SQL gives
      no order without `ORDER BY`; reading the earliest inserted row (lowest
      rowid) is an assumption of this model, not a promise of the source. */
  function Lookup(t: Table, chain: string, address: string, queryFails: bool)
    : (r: Result<Bundle, LookupError>)
    ensures queryFails <==> r.Err?
    ensures !queryFails && NoRow(t, chain, address) ==> r == Ok(EmptyBundle)
    ensures r.Ok? && !NoRow(t, chain, address) ==>
      exists i :: 0 <= i < |t| && t[i].Matches(chain, address) && r.value == t[i].assets
  {
    if queryFails then Err(QueryFailed)
    else match FirstMatch(t, chain, address)
      case None => Ok(EmptyBundle)
      case Some(i) => Ok(t[i].assets)
  }

  /** A lookup on a key with no row answers the empty bundle and no error. */
  lemma MissingKeyGivesEmptyBundle(t: Table, chain: string, address: string)
    requires CountRows(t, chain, address) == 0
    ensures Lookup(t, chain, address, false) == Ok(EmptyBundle)
    ensures LookupAsWritten(t, chain, address, false) == Ok(EmptyBundle)
  {
    CountZeroIffNoRow(t, chain, address);
  }

  /** As written, a lookup on any key that owns a row fails. */
  lemma LookupAsWrittenFailsOnCachedKey(t: Table, chain: string, address: string)
    requires CountRows(t, chain, address) > 0
    ensures LookupAsWritten(t, chain, address, false) == Err(ScanFailed)
  {
    CountZeroIffNoRow(t, chain, address);
  }
}
