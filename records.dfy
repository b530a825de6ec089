/** The transaction entity, its status vocabulary and the store's error kinds. */
module Records {
  import opened Wrappers

  /** The three states of a transaction; no other status is ever stored. */
  datatype Status = Pending | Failed | Success

  /** The text a status is stored and compared as. */
  function StatusText(s: Status): string {
    match s
    case Pending => "pending"
    case Failed => "failed"
    case Success => "success"
  }

  /** The status a text names, if it names one. */
  function ParseStatus(text: string): (r: Option<Status>)
    ensures r.Some? ==> StatusText(r.value) == text
    ensures r.None? ==> forall s: Status :: StatusText(s) != text
  {
    if text == "pending" then Some(Pending)
    else if text == "failed" then Some(Failed)
    else if text == "success" then Some(Success)
    else None
  }

  /** Every status is read back from its text. */
  lemma StatusTextRoundTrip(s: Status)
    ensures ParseStatus(StatusText(s)) == Some(s)
  {
  }

  /**
   * One row of the transactions table. Timestamps are opaque integers
   * supplied by the caller or by the database's clock.
   */
  datatype Transaction = Transaction(
    id: int,
    userId: int,
    amount: int,
    status: Status,
    version: int,
    createdAt: int,
    updatedAt: int)

  /**
   * What a store operation can fail with: the two named kinds, the two
   * precondition failures of the list operation, a query the database
   * rejects, and any other failure of the database, carrying its cause.
   */
  datatype StoreError =
    | RecordNotFound
    | EditConflict
    | UnsetPagination
    | UnsetSort
    | MalformedQuery
    | Backend(cause: string)

  /**
   * The pagination metadata of a list result: the application of the
   * metadata calculation to a total row count, a page and a page size. The
   * calculation itself is not part of this model.
   */
  datatype Metadata = CalculateMetadata(totalRecords: int, page: int, pageSize: int)
}
