/** The interactions a request has with the world outside the model (the
    database and the indexing API), recorded in the order they happen so that
    ordering rules such as "validate before any I/O" can be stated. */
module Effects {
  import opened Store

  datatype Effect =
    | Query(chain: string, address: string)         // the lookup's SELECT
    | BeginTx
    | FetchNfts(chain: string, address: string)
    | FetchTokens(chain: string, address: string)
    | Insert(row: Row)
    | Commit
    | Rollback                                      // the deferred tx.Rollback
}
