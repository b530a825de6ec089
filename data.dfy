/**
 * The transaction store: the transactions table held in memory, keyed by
 * id, with the id sequence that hands out new ids. Every operation takes a
 * `fault`, standing for a failure of the database (a lost connection, the
 * three-second deadline running out), which the operation passes on as
 * `Backend(cause)` without storing or removing any row.
 */
module Data {
  import opened Wrappers
  import opened Records
  import opened Engine
  import GetAllDto

  /**
   * The table invariant: every row sits under its id, ids are at least 1 and
   * below the next id the sequence will hand out, and versions start at 1.
   */
  ghost predicate TableInvariant(rows: map<int, Transaction>, nextId: int) {
    && nextId >= 1
    && KeyedById(rows)
    && (forall k :: k in rows ==> 1 <= k < nextId && rows[k].version >= 1)
  }

  /** The row a compare-and-swap on `(t.id, t.version)` would hit. */
  predicate CasMatches(rows: map<int, Transaction>, t: Transaction) {
    t.id in rows && rows[t.id].version == t.version
  }

  /**
   * The stored row after the update's SET clause: the amount, status and
   * update time come from the caller, the version goes up by one, the other
   * columns stay.
   */
  function Rewritten(stored: Transaction, t: Transaction): (r: Transaction)
    ensures r.id == stored.id && r.userId == stored.userId && r.createdAt == stored.createdAt
    ensures r.version == stored.version + 1
    ensures r.amount == t.amount && r.status == t.status && r.updatedAt == t.updatedAt
  {
    stored.(amount := t.amount, status := t.status, updatedAt := t.updatedAt, version := stored.version + 1)
  }

  /**
   * A successful rewrite moves the row's version on: a second update still
   * carrying the old version misses, while one carrying the version the
   * first update handed back hits.
   */
  lemma RewriteInvalidatesVersion(rows: map<int, Transaction>, t: Transaction, later: Transaction)
    requires CasMatches(rows, t) && later.id == t.id
    ensures var after := rows[t.id := Rewritten(rows[t.id], t)];
      CasMatches(after, later) <==> later.version == t.version + 1
  {
  }

  /** The id the sequence hands out next is never a stored id, even after deletes. */
  lemma NextIdIsFresh(rows: map<int, Transaction>, nextId: int)
    requires TableInvariant(rows, nextId)
    ensures nextId !in rows
    ensures forall k :: k in rows ==> k < nextId
  {
  }

  /** The result of a list query: the rows (None for Go's nil slice) and the metadata. */
  datatype ListResult = ListResult(transactions: Option<seq<Transaction>>, metadata: Metadata)

  /** Limit and offset are both set. */
  predicate PaginationSet(q: GetAllDto.TransactionGetAllDto) {
    q.pagination.limit.Some? && q.pagination.offset.Some?
  }

  /** A sort token was given but its column or direction was not resolved. */
  predicate SortUnresolved(q: GetAllDto.TransactionGetAllDto) {
    q.sort.rawValue != "" && (q.sort.columnValue.None? || q.sort.direction.None?)
  }

  /** The query the plan spells out is one the database runs. */
  predicate Executable(q: GetAllDto.TransactionGetAllDto)
    requires PaginationSet(q) && q.sort.columnValue.Some? && q.sort.direction.Some?
  {
    && ParseColumn(q.sort.columnValue.value).Some?
    && ParseDirection(q.sort.direction.value).Some?
    && q.pagination.limit.value >= 0
    && q.pagination.offset.value >= 0
  }

  /**
   * The listing of a table that keeps its invariant holds every matching row
   * of the table, whatever its id, and nothing else; its length is the
   * number of matching rows.
   */
  lemma TableListing(rows: map<int, Transaction>, nextId: int, filter: string, c: Column, d: Direction)
    requires TableInvariant(rows, nextId)
    ensures var all := Listing(rows, nextId, filter, c, d);
      && Sorted(all, c, d)
      && (forall t :: t in all <==> t.id in rows && rows[t.id] == t && Matches(t, filter))
      && |all| == |set k | k in rows && Matches(rows[k], filter)|
  {
    ListingSpec(rows, nextId, filter, c, d);
    assert MatchingIds(rows, 1, nextId, filter) == set k | k in rows && Matches(rows[k], filter);
  }

  class TransactionModel {
    var rows: map<int, Transaction>
    var nextId: int

    ghost predicate Valid()
      reads this
    {
      TableInvariant(rows, nextId)
    }

    /** An empty table whose sequence starts at 1. */
    constructor ()
      ensures Valid() && rows == map[] && nextId == 1
    {
      rows := map[];
      nextId := 1;
    }

    /**
     * Stores the user id, amount and status of `t` under a fresh id and
     * returns `t` with the id, version and timestamps the store assigned. The
     * version is the column default 1; the timestamps are the database's.
     * A failed insert stores no row, but when the statement had already drawn
     * the id from the sequence (`idDrawn`) that id is used up: sequences are
     * never rolled back, so the next insert skips it.
     */
    method Insert(t: Transaction, createdAt: int, updatedAt: int, fault: Option<string>, idDrawn: bool)
      returns (stored: Transaction, err: Option<StoreError>)
      requires Valid()
      modifies this
      ensures Valid()
      ensures fault.Some? ==>
        && err == Some(Backend(fault.value)) && stored == t && rows == old(rows)
        && nextId == (if idDrawn then old(nextId) + 1 else old(nextId))
      ensures fault.None? ==>
        && err.None?
        && stored == t.(id := old(nextId), version := 1, createdAt := createdAt, updatedAt := updatedAt)
        && stored.id !in old(rows)
        && rows == old(rows)[stored.id := stored]
        && nextId == old(nextId) + 1
    {
      if fault.Some? {
        if idDrawn {
          nextId := nextId + 1;
        }
        return t, Some(Backend(fault.value));
      }
      stored := t.(id := nextId, version := 1, createdAt := createdAt, updatedAt := updatedAt);
      rows := rows[nextId := stored];
      nextId := nextId + 1;
      err := None;
    }

    /** The row with the given id; ids below 1 are not looked up. */
    method Get(id: int, fault: Option<string>) returns (r: Result<Transaction, StoreError>)
      requires Valid()
      ensures id < 1 ==> r == Err(RecordNotFound)
      ensures id >= 1 && fault.Some? ==> r == Err(Backend(fault.value))
      ensures id >= 1 && fault.None? && id in rows ==> r == Ok(rows[id]) && r.value.id == id
      ensures id >= 1 && fault.None? && id !in rows ==> r == Err(RecordNotFound)
    {
      if id < 1 {
        return Err(RecordNotFound);
      }
      if fault.Some? {
        return Err(Backend(fault.value));
      }
      if id in rows {
        r := Ok(rows[id]);
      } else {
        r := Err(RecordNotFound);
      }
    }

    /**
     * The optimistic-concurrency update: when the row `t.id` still has
     * version `t.version`, writes the amount, status and update time of `t`
     * and bumps the stored version, returning `t` with the new version;
     * otherwise (stale version or no such row) changes nothing and fails with
     * EditConflict.
     */
    method Update(t: Transaction, fault: Option<string>) returns (r: Transaction, err: Option<StoreError>)
      requires Valid()
      modifies this
      ensures Valid() && nextId == old(nextId)
      ensures fault.Some? ==> err == Some(Backend(fault.value)) && r == t && rows == old(rows)
      ensures fault.None? && CasMatches(old(rows), t) ==>
        && err.None?
        && r == t.(version := t.version + 1)
        && rows == old(rows)[t.id := Rewritten(old(rows)[t.id], t)]
        && rows[t.id].version == r.version
      ensures fault.None? && !CasMatches(old(rows), t) ==>
        err == Some(EditConflict) && r == t && rows == old(rows)
    {
      if fault.Some? {
        return t, Some(Backend(fault.value));
      }
      if t.id in rows && rows[t.id].version == t.version {
        rows := rows[t.id := Rewritten(rows[t.id], t)];
        r, err := t.(version := t.version + 1), None;
      } else {
        r, err := t, Some(EditConflict);
      }
    }

    /** Removes the row with the given id; ids below 1 and absent rows are NotFound. */
    method Delete(id: int, fault: Option<string>) returns (err: Option<StoreError>)
      requires Valid()
      modifies this
      ensures Valid() && nextId == old(nextId)
      ensures id < 1 ==> err == Some(RecordNotFound) && rows == old(rows)
      ensures id >= 1 && fault.Some? ==> err == Some(Backend(fault.value)) && rows == old(rows)
      ensures id >= 1 && fault.None? && id !in old(rows) ==> err == Some(RecordNotFound) && rows == old(rows)
      ensures id >= 1 && fault.None? && id in old(rows) ==> err.None? && rows == old(rows) - {id}
    {
      if id < 1 {
        return Some(RecordNotFound);
      }
      if fault.Some? {
        return Some(Backend(fault.value));
      }
      if id !in rows {
        return Some(RecordNotFound);
      }
      rows := rows - {id};
      err := None;
    }

    /**
     * One page of the rows matching the status filter, in the resolved order,
     * with the metadata of the count of all matching rows. The count is read
     * from the rows of the page, so a page past the end reports 0. A nil
     * column or direction with an empty sort token would be dereferenced,
     * which the caller must not allow.
     */
    method GetAll(q: GetAllDto.TransactionGetAllDto, fault: Option<string>) returns (r: Result<ListResult, StoreError>)
      requires Valid()
      requires q.sort.rawValue == "" ==> q.sort.columnValue.Some? && q.sort.direction.Some?
      ensures !PaginationSet(q) ==> r == Err(UnsetPagination)
      ensures PaginationSet(q) && SortUnresolved(q) ==> r == Err(UnsetSort)
      ensures PaginationSet(q) && !SortUnresolved(q) && fault.Some? ==> r == Err(Backend(fault.value))
      ensures PaginationSet(q) && !SortUnresolved(q) && fault.None? && !Executable(q) ==> r == Err(MalformedQuery)
      ensures PaginationSet(q) && !SortUnresolved(q) && fault.None? && Executable(q) ==>
        var all := Listing(rows, nextId, q.filter.status,
                           ParseColumn(q.sort.columnValue.value).value,
                           ParseDirection(q.sort.direction.value).value);
        var page := Page(all, q.pagination.limit.value, q.pagination.offset.value);
        r == Ok(ListResult(
               if page == [] then None else Some(page),
               CalculateMetadata(if page == [] then 0 else |all|, q.pagination.page, q.pagination.pageSize)))
    {
      if q.pagination.limit.None? || q.pagination.offset.None? {
        return Err(UnsetPagination);
      }
      if q.sort.rawValue != "" && (q.sort.direction.None? || q.sort.columnValue.None?) {
        return Err(UnsetSort);
      }
      if fault.Some? {
        return Err(Backend(fault.value));
      }
      var column := ParseColumn(q.sort.columnValue.value);
      var direction := ParseDirection(q.sort.direction.value);
      var limit, offset := q.pagination.limit.value, q.pagination.offset.value;
      if column.None? || direction.None? || limit < 0 || offset < 0 {
        return Err(MalformedQuery);
      }
      var all := Listing(rows, nextId, q.filter.status, column.value, direction.value);
      ghost var page := Page(all, limit, offset);
      var results := ResultRows(all, limit, offset);

      var totalRecords := 0;
      var transactions: Option<seq<Transaction>> := None;
      var i := 0;
      while i < |results|
        invariant 0 <= i <= |results|
        invariant i == 0 ==> totalRecords == 0 && transactions == None
        invariant i > 0 ==> totalRecords == |all| && transactions == Some(page[..i])
      {
        var (count, row) := results[i];
        assert count == |all| && row == page[i];
        assert page[..i + 1] == page[..i] + [row];
        totalRecords := count;
        transactions := Some(transactions.GetOr([]) + [row]);
        i := i + 1;
      }
      assert page[..|results|] == page;
      var metadata := CalculateMetadata(totalRecords, q.pagination.page, q.pagination.pageSize);
      r := Ok(ListResult(transactions, metadata));
    }
  }
}
