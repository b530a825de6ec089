/**
 * Call sequences over a fresh store and over the handlers, stating what a
 * client observes across several calls.
 */
module Scenarios {
  import opened Wrappers
  import opened Records
  import opened Errors
  import opened Data
  import opened Handlers
  import TransactionDto
  import Engine
  import GetAllDto

  /**
   * Create (user 1, amount 500) gets id 1 and version 1; an update to 750
   * and success carrying version 1 is stored as version 2; a second update
   * still carrying version 1 conflicts and leaves the row as the first
   * update wrote it.
   */
  method CreateUpdateConflict() returns (created: Transaction, updated: Transaction, second: Option<StoreError>, final: Transaction)
    ensures created.id == 1 && created.version == 1 && created.status == Pending && created.amount == 500
    ensures updated.version == 2 && updated.amount == 750 && updated.status == Success
    ensures second == Some(EditConflict)
    ensures final == created.(amount := 750, status := Success, version := 2, updatedAt := 30)
  {
    var m := new TransactionModel();
    var err: Option<StoreError>;
    created, err := m.Insert(Transaction(0, 1, 500, Pending, 1, 0, 0), 10, 10, None, false);
    updated, err := m.Update(created.(amount := 750, status := Success, updatedAt := 30), None);
    var stale: Transaction;
    stale, second := m.Update(created.(amount := 900, updatedAt := 40), None);
    final := m.rows[1];
  }

  /** Once deleted, a record is not found, and the id is not handed out again. */
  method DeleteThenGet() returns (before: Result<Transaction, StoreError>, after: Result<Transaction, StoreError>, next: Transaction)
    ensures before.Ok? && before.value.id == 1
    ensures after == Err(RecordNotFound)
    ensures next.id == 2
  {
    var m := new TransactionModel();
    var t, err := m.Insert(Transaction(0, 7, 100, Pending, 1, 0, 0), 1, 1, None, false);
    before := m.Get(1, None);
    err := m.Delete(1, None);
    after := m.Get(1, None);
    next, err := m.Insert(Transaction(0, 7, 200, Pending, 1, 0, 0), 2, 2, None, false);
  }

  /**
   * An insert that fails after drawing id 1 stores nothing, and the next
   * insert gets id 2: the failed insert leaves a gap in the ids.
   */
  method FailedInsertLeavesGap() returns (failed: Option<StoreError>, next: Transaction, count: nat)
    ensures failed == Some(Backend("deadline exceeded"))
    ensures next.id == 2
    ensures count == 1
  {
    var m := new TransactionModel();
    var t: Transaction;
    t, failed := m.Insert(Transaction(0, 7, 100, Pending, 1, 0, 0), 1, 1, Some("deadline exceeded"), true);
    assert m.rows == map[];
    var err;
    next, err := m.Insert(Transaction(0, 7, 100, Pending, 1, 0, 0), 2, 2, None, false);
    assert m.rows == map[2 := next];
    count := |m.rows|;
  }

  /** An inserted record reads back exactly as the store returned it. */
  method InsertGetRoundTrip(m: TransactionModel, t: Transaction, createdAt: int, updatedAt: int)
    returns (stored: Transaction, fetched: Result<Transaction, StoreError>)
    requires m.Valid()
    modifies m
    ensures fetched == Ok(stored)
    ensures stored.userId == t.userId && stored.amount == t.amount && stored.status == t.status
  {
    var err;
    stored, err := m.Insert(t, createdAt, updatedAt, None, false);
    fetched := m.Get(stored.id, None);
  }

  /**
   * Through the handlers: a valid create answers 201, the record is then
   * served with 200, removing it answers 200 with the delete message, and a
   * further fetch answers 404.
   */
  method CreateFetchRemoveFetch() returns (created: Response, fetched: Response, removed: Response, gone: Response)
    ensures created == Reply(StatusCreated, TransactionBody(Transaction(1, 3, 250, Pending, 1, 5, 5)))
    ensures fetched == Reply(StatusOK, TransactionBody(Transaction(1, 3, 250, Pending, 1, 5, 5)))
    ensures removed == Reply(StatusOK, MessageBody(DeletedMessage(1)))
    ensures gone.Failure? && gone.error.code == StatusNotFound
  {
    var m := new TransactionModel();
    var record := Transaction(1, 3, 250, Pending, 1, 5, 5);
    var d := TransactionDto.TransactionCreateDto(3, 250);
    TransactionDto.CreateValidIff(d);
    assert NewTransaction(d, 0, 0).(id := 1, createdAt := 5, updatedAt := 5) == record;
    created := CreateTransactionHandler(m, Bound(d), 0, 0, 5, 5, None, false);
    assert m.rows == map[1 := record];
    fetched := GetByIdTransactionHandler(m, Bound(1), None);
    removed := RemoveByIdTransactionHandler(m, Bound(1), None, None);
    assert m.rows == map[];
    gone := GetByIdTransactionHandler(m, Bound(1), None);
  }

  /** The delete message for id 1, as a client reads it. */
  lemma DeletedMessageOfOne()
    ensures DeletedMessage(1) == "transaction record with id 1 succesfully dedelte"
  {
    assert Digit(1) == '1';
    assert DecimalText(1) == "1";
  }

  /** A create request with amount 0 is refused with 422 and nothing is stored. */
  method ZeroAmountRefused() returns (res: Response, count: nat)
    ensures res.Failure? && res.error.code == StatusUnprocessableEntity
    ensures count == 0
  {
    var m := new TransactionModel();
    TransactionDto.CreateValidIff(TransactionDto.TransactionCreateDto(3, 0));
    res := CreateTransactionHandler(m, Bound(TransactionDto.TransactionCreateDto(3, 0)), 0, 0, 5, 5, None, false);
    count := |m.rows|;
  }

  /** A list request on an empty table answers 200 with an empty list, not nil. */
  /** Sorting by a table column outside the request's allow-list still runs: user 3's row comes first. */
  method ListByUserId() returns (r: Result<ListResult, StoreError>)
    ensures r.Ok? && r.value.transactions.Some?
    ensures |r.value.transactions.value| == 2
    ensures r.value.transactions.value[0].userId == 3 && r.value.transactions.value[1].userId == 9
  {
    var m := new TransactionModel();
    var first, e1 := m.Insert(Transaction(0, 9, 100, Pending, 1, 0, 0), 1, 1, None, false);
    var second, e2 := m.Insert(Transaction(0, 3, 50, Pending, 1, 0, 0), 2, 2, None, false);
    assert m.rows == map[1 := first, 2 := second] && m.nextId == 3;
    var q := GetAllDto.TransactionGetAllDto(GetAllDto.Pagination(1, 10, Some(10), Some(0)),
                                         GetAllDto.Sort("user_id", Some("user_id"), Some("ASC")),
                                         GetAllDto.Filter(""));
    assert Engine.Scan(m.rows, 3, 3, "") == [];
    assert Engine.Scan(m.rows, 2, 3, "") == [second];
    assert Engine.Scan(m.rows, 1, 3, "") == [first, second];
    assert Engine.SortRows([second], Engine.ByUserId, Engine.Asc) == [second];
    assert !Engine.Before(first, second, Engine.ByUserId, Engine.Asc);
    assert Engine.InsertRow(first, [second], Engine.ByUserId, Engine.Asc) == [second, first];
    assert Engine.Listing(m.rows, 3, "", Engine.ByUserId, Engine.Asc) == [second, first];
    r := m.GetAll(q, None);
  }

  method ListEmptyTable() returns (res: Response)
    ensures res.Reply? && res.code == StatusOK && res.body.ListBody? && res.body.transactions == []
  {
    var m := new TransactionModel();
    TransactionDto.GetAllValidIff(BoundRequest(ListQuery(None, None, None, None)));
    res := GetAllTransactionHandler(m, Bound(ListQuery(None, None, None, None)), None);
  }
}
