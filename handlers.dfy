/**
 * The transaction endpoints: how each handler binds and validates its
 * request, builds or patches a record, calls the store and turns the
 * outcome into a response. Request binding is an input (the bound value or
 * the binder's error text); clocks are caller-supplied timestamps; storage
 * failures are `fault` parameters passed on to the store.
 */
module Handlers {
  import opened Wrappers
  import opened Records
  import opened Engine
  import opened Errors
  import opened Helpers
  import Data
  import TransactionDto
  import GetAllDto

  /** What binding a request part yields: the bound value, or the binder's error text. */
  datatype Binding<T> = Bound(value: T) | BindError(message: string)

  /** The JSON envelope of a successful response. */
  datatype Body =
    | TransactionBody(transaction: Transaction)
    | ListBody(transactions: seq<Transaction>, metadata: Metadata)
    | MessageBody(message: string)

  datatype Response = Reply(code: int, body: Body) | Failure(error: HttpError)

  // ---- record construction --------------------------------------------------

  /** The record the create handler hands to the store; the store assigns the id. */
  function NewTransaction(d: TransactionDto.TransactionCreateDto, createdAt: int, updatedAt: int): (t: Transaction)
    ensures t.userId == d.userId && t.amount == d.amount
    ensures t.status == Pending && t.version == 1
    ensures t.id == 0 && t.createdAt == createdAt && t.updatedAt == updatedAt
  {
    Transaction(0, d.userId, d.amount, Pending, 1, createdAt, updatedAt)
  }

  /** A record built from an accepted create request has a real user and a positive amount. */
  lemma AcceptedRequestBuildsPositiveRecord(d: TransactionDto.TransactionCreateDto, createdAt: int, updatedAt: int)
    requires TransactionDto.CreateValid(d)
    ensures NewTransaction(d, createdAt, updatedAt).userId >= 1
    ensures NewTransaction(d, createdAt, updatedAt).amount >= 1
  {
    TransactionDto.CreateValidIff(d);
  }

  // ---- the update patch -------------------------------------------------------

  /** The status an update request names, when it names one of the three. */
  function RequestedStatus(status: Option<string>): (s: Option<Status>)
    ensures status.None? ==> s.None?
    ensures s.Some? ==> status.Some? && StatusText(s.value) == status.value
    ensures status.Some? && status.value in TransactionDto.StatusValues ==> s.Some?
  {
    if status.None? then None else ParseStatus(status.value)
  }

  /**
   * A fetched record after the update request's optional fields are applied:
   * a given field replaces the stored one, an absent one keeps it, and the
   * update time is always refreshed. Identity, owner, version and creation
   * time are never touched.
   */
  function Patched(t: Transaction, amount: Option<int>, status: Option<Status>, now: int): (p: Transaction)
    ensures p.id == t.id && p.userId == t.userId && p.version == t.version && p.createdAt == t.createdAt
    ensures p.amount == (if amount.Some? then amount.value else t.amount)
    ensures p.status == (if status.Some? then status.value else t.status)
    ensures p.updatedAt == now
  {
    t.(amount := amount.GetOr(t.amount), status := status.GetOr(t.status), updatedAt := now)
  }

  /** The patch as the handler applies it, one field after the other. */
  method PatchTransaction(t: Transaction, d: TransactionDto.TransactionUpdateDto, now: int) returns (p: Transaction)
    requires d.status.Some? ==> d.status.value in TransactionDto.StatusValues
    ensures p == Patched(t, d.amount, RequestedStatus(d.status), now)
  {
    p := t;
    if d.amount.Some? {
      p := p.(amount := d.amount.value);
    }
    if d.status.Some? {
      p := p.(status := ParseStatus(d.status.value).value);
    }
    p := p.(updatedAt := now);
  }

  /** Applying the same patch twice is applying it once. */
  lemma PatchIdempotent(t: Transaction, amount: Option<int>, status: Option<Status>, now: int)
    ensures Patched(Patched(t, amount, status, now), amount, status, now) == Patched(t, amount, status, now)
  {
  }

  /**
   * Patching a freshly fetched row keeps its id and version, so the patched
   * record wins the store's compare-and-swap, and the row then stored is the
   * patched record with the next version: the handler's reply is what the
   * table holds.
   */
  lemma PatchOfFetchedRowIsStored(rows: map<int, Transaction>, id: int, amount: Option<int>, status: Option<Status>, now: int)
    requires id in rows && rows[id].id == id
    ensures Data.CasMatches(rows, Patched(rows[id], amount, status, now))
    ensures var p := Patched(rows[id], amount, status, now);
      Data.Rewritten(rows[id], p) == p.(version := p.version + 1)
  {
  }

  // ---- store errors to responses ----------------------------------------------

  /** Fetching: a missing row is 404, anything else is a server error. */
  function GetErrorResponse(e: StoreError): (h: HttpError)
    ensures h.code == (if e == RecordNotFound then StatusNotFound else StatusInternalServerError)
    ensures e == RecordNotFound ==> h.message == Text(NotFoundMessage)
    ensures e != RecordNotFound ==> h.message == Text(InternalServerMessage)
  {
    if e == RecordNotFound then ErrNotFound([]) else ErrInternalServer(e, "failed to get transaction by id")
  }

  /** Updating: a lost compare-and-swap is 409, anything else is a server error. */
  function UpdateErrorResponse(e: StoreError): (h: HttpError)
    ensures h.code == (if e == EditConflict then StatusConflict else StatusInternalServerError)
    ensures e == EditConflict ==> h.message == Text(EditConflictMessage)
    ensures e != EditConflict ==> h.message == Text(InternalServerMessage)
  {
    if e == EditConflict then ErrEditConflict() else ErrInternalServer(e, "failed to update transaction")
  }

  /** A client tells the two error kinds apart by the code alone. */
  lemma ErrorCodesClassify(e: StoreError)
    ensures GetErrorResponse(e).code == StatusNotFound <==> e == RecordNotFound
    ensures UpdateErrorResponse(e).code == StatusConflict <==> e == EditConflict
    ensures GetErrorResponse(e).code != StatusConflict && UpdateErrorResponse(e).code != StatusNotFound
  {
  }

  // ---- the list plan ------------------------------------------------------------

  /** The query-string values of a list request; an absent one keeps its default. */
  datatype ListQuery = ListQuery(page: Option<int>, pageSize: Option<int>, sortBy: Option<string>, status: Option<string>)

  /** The list request before binding: page 1, page size 10, sort by id. */
  function Defaults(): (d: TransactionDto.TransactionGetAllDto)
    ensures d.pagination.page == Some(1) && d.pagination.pageSize == Some(10)
    ensures d.sort.rawValue == Some("id") && d.filter.status.None?
  {
    TransactionDto.TransactionGetAllDto(
      TransactionDto.Pagination(Some(1), Some(10), None, None),
      TransactionDto.Sort(Some("id"), None, None),
      TransactionDto.Filter(None))
  }

  /** Binding writes each query value that is present over the request's field. */
  function BindQuery(d: TransactionDto.TransactionGetAllDto, q: ListQuery): (b: TransactionDto.TransactionGetAllDto)
    ensures b.pagination.page == (if q.page.Some? then q.page else d.pagination.page)
    ensures b.pagination.pageSize == (if q.pageSize.Some? then q.pageSize else d.pagination.pageSize)
    ensures b.sort.rawValue == (if q.sortBy.Some? then q.sortBy else d.sort.rawValue)
    ensures b.filter.status == (if q.status.Some? then q.status else d.filter.status)
    ensures b.pagination.limit == d.pagination.limit && b.pagination.offset == d.pagination.offset
    ensures b.sort.columnValue == d.sort.columnValue && b.sort.direction == d.sort.direction
  {
    d.(pagination := d.pagination.(page := if q.page.Some? then q.page else d.pagination.page,
                                   pageSize := if q.pageSize.Some? then q.pageSize else d.pagination.pageSize),
       sort := d.sort.(rawValue := if q.sortBy.Some? then q.sortBy else d.sort.rawValue),
       filter := d.filter.(status := if q.status.Some? then q.status else d.filter.status))
  }

  /** The bound request: defaults overwritten by the query. */
  function BoundRequest(q: ListQuery): TransactionDto.TransactionGetAllDto {
    BindQuery(Defaults(), q)
  }

  /**
   * The plan resolved from a bound request: the limit is the page size, the
   * offset the page's offset, and the column and direction are read off the
   * sort token.
   */
  function ResolvePlan(d: TransactionDto.TransactionGetAllDto): (p: TransactionDto.TransactionGetAllDto)
    requires d.pagination.page.Some? && d.pagination.pageSize.Some? && d.sort.rawValue.Some?
    ensures p.pagination.limit == d.pagination.pageSize
    ensures p.pagination.offset == Some(PageOffset(d.pagination.page.value, d.pagination.pageSize.value))
    ensures p.sort.direction == Some(SortDirection(d.sort.rawValue.value))
    ensures p.sort.columnValue == Some(SortColumn(d.sort.rawValue.value))
    ensures p.pagination.page == d.pagination.page && p.pagination.pageSize == d.pagination.pageSize
    ensures p.sort.rawValue == d.sort.rawValue && p.filter == d.filter
  {
    var raw := d.sort.rawValue.value;
    d.(pagination := d.pagination.(limit := d.pagination.pageSize,
                                   offset := Some(PageOffset(d.pagination.page.value, d.pagination.pageSize.value))),
       sort := d.sort.(direction := Some(SortDirection(raw)), columnValue := Some(SortColumn(raw))))
  }

  /**
   * The request as the store reads it: the set pointers dereferenced, with
   * an absent status filter read as the empty text that selects all rows.
   */
  function StoreQuery(d: TransactionDto.TransactionGetAllDto): (q: GetAllDto.TransactionGetAllDto)
    requires d.pagination.page.Some? && d.pagination.pageSize.Some? && d.sort.rawValue.Some?
    ensures q.pagination.page == d.pagination.page.value && q.pagination.pageSize == d.pagination.pageSize.value
    ensures q.pagination.limit == d.pagination.limit && q.pagination.offset == d.pagination.offset
    ensures q.sort.rawValue == d.sort.rawValue.value
    ensures q.sort.columnValue == d.sort.columnValue && q.sort.direction == d.sort.direction
    ensures q.filter.status == d.filter.status.GetOr("")
  {
    GetAllDto.TransactionGetAllDto(
      GetAllDto.Pagination(d.pagination.page.value, d.pagination.pageSize.value, d.pagination.limit, d.pagination.offset),
      GetAllDto.Sort(d.sort.rawValue.value, d.sort.columnValue, d.sort.direction),
      GetAllDto.Filter(d.filter.status.GetOr("")))
  }

  /** The store query a list request turns into. */
  function Plan(q: ListQuery): (p: GetAllDto.TransactionGetAllDto)
    ensures TransactionDto.GetAllValid(BoundRequest(q)) ==> PlanExecutes(p)
  {
    ValidatedPlanExecutes(q);
    StoreQuery(ResolvePlan(BoundRequest(q)))
  }

  /**
   * What the store needs of a query: limit and offset set and in range, the
   * sort token resolved to one of the four column names and one of the two
   * keywords, and the filter empty or a status.
   */
  predicate PlanExecutes(p: GetAllDto.TransactionGetAllDto) {
    && Data.PaginationSet(p) && !Data.SortUnresolved(p)
    && p.sort.columnValue == Some(SortColumn(p.sort.rawValue))
    && p.sort.direction == Some(SortDirection(p.sort.rawValue))
    && ParseColumn(SortColumn(p.sort.rawValue)).Some?
    && ParseDirection(SortDirection(p.sort.rawValue)).Some?
    && 1 <= p.pagination.limit.value <= 100
    && 0 <= p.pagination.offset.value <= 99900
    && (p.filter.status == "" || p.filter.status in TransactionDto.StatusValues)
  }

  /** Every request that passes validation turns into a query the store runs. */
  lemma ValidatedPlanExecutes(q: ListQuery)
    ensures TransactionDto.GetAllValid(BoundRequest(q)) ==> PlanExecutes(StoreQuery(ResolvePlan(BoundRequest(q))))
  {
    var b := BoundRequest(q);
    if TransactionDto.GetAllValid(b) {
      TransactionDto.GetAllValidIff(b);
      AllowListedTokensResolve(b.sort.rawValue.value);
      ValidatedOffsetInRange(b.pagination.page.value, b.pagination.pageSize.value);
    }
  }

  /** A request without query values lists the first ten rows by ascending id, unfiltered. */
  lemma DefaultPlanIsFirstPageById()
    ensures var p := Plan(ListQuery(None, None, None, None));
      && p.pagination.limit == Some(10) && p.pagination.offset == Some(0)
      && p.sort.columnValue == Some("id") && p.sort.direction == Some("ASC")
      && p.filter.status == ""
  {
    ColumnsOfTokens();
  }

  // ---- handlers ---------------------------------------------------------------

  /** Creates a pending record for a valid request and answers 201 with the stored record. */
  method CreateTransactionHandler(m: Data.TransactionModel, body: Binding<TransactionDto.TransactionCreateDto>,
                                  now1: int, now2: int, dbCreatedAt: int, dbUpdatedAt: int,
                                  fault: Option<string>, idDrawn: bool)
    returns (res: Response)
    requires m.Valid()
    modifies m
    ensures m.Valid()
    ensures body.BindError? ==>
      res == Failure(ErrBadRequest(body.message)) && m.rows == old(m.rows) && m.nextId == old(m.nextId)
    ensures body.Bound? && !TransactionDto.CreateValid(body.value) ==>
      && res == Failure(ErrFailedValidation(TransactionDto.CreateErrors(body.value)))
      && m.rows == old(m.rows) && m.nextId == old(m.nextId)
    ensures body.Bound? && TransactionDto.CreateValid(body.value) && fault.Some? ==>
      && res.Failure? && res.error == HttpError(StatusInternalServerError, Text(InternalServerMessage)) && m.rows == old(m.rows)
      && m.nextId == (if idDrawn then old(m.nextId) + 1 else old(m.nextId))
    ensures body.Bound? && TransactionDto.CreateValid(body.value) && fault.None? ==>
      var stored := NewTransaction(body.value, now1, now2).(id := old(m.nextId), createdAt := dbCreatedAt, updatedAt := dbUpdatedAt);
      && res == Reply(StatusCreated, TransactionBody(stored))
      && stored.id !in old(m.rows)
      && m.rows == old(m.rows)[stored.id := stored]
      && m.nextId == old(m.nextId) + 1
  {
    if body.BindError? {
      return Failure(ErrBadRequest(body.message));
    }
    var d := body.value;
    if !TransactionDto.CreateValid(d) {
      return Failure(ErrFailedValidation(TransactionDto.CreateErrors(d)));
    }
    var transaction := NewTransaction(d, now1, now2);
    var stored, err := m.Insert(transaction, dbCreatedAt, dbUpdatedAt, fault, idDrawn);
    if err.Some? {
      return Failure(ErrInternalServer(err.value, "failed insert transaction"));
    }
    res := Reply(StatusCreated, TransactionBody(stored));
  }

  /** Answers 200 with the record of the path id, 404 when there is none. */
  method GetByIdTransactionHandler(m: Data.TransactionModel, id: Binding<int>, fault: Option<string>)
    returns (res: Response)
    requires m.Valid()
    ensures id.BindError? ==> res == Failure(ErrBadRequest(id.message))
    ensures id.Bound? && (id.value < 1 || (fault.None? && id.value !in m.rows)) ==>
      res == Failure(ErrNotFound([]))
    ensures id.Bound? && id.value >= 1 && fault.Some? ==> res.Failure? && res.error == HttpError(StatusInternalServerError, Text(InternalServerMessage))
    ensures id.Bound? && id.value >= 1 && fault.None? && id.value in m.rows ==>
      res == Reply(StatusOK, TransactionBody(m.rows[id.value]))
  {
    if id.BindError? {
      return Failure(ErrBadRequest(id.message));
    }
    var r := m.Get(id.value, fault);
    if r.Err? {
      return Failure(GetErrorResponse(r.error));
    }
    res := Reply(StatusOK, TransactionBody(r.value));
  }

  /**
   * Fetches the record of the path id, then deletes it by the fetched
   * record's id and answers 200 with a message naming that id.
   */
  method RemoveByIdTransactionHandler(m: Data.TransactionModel, id: Binding<int>,
                                      getFault: Option<string>, deleteFault: Option<string>)
    returns (res: Response)
    requires m.Valid()
    modifies m
    ensures m.Valid() && m.nextId == old(m.nextId)
    ensures id.BindError? ==> res == Failure(ErrBadRequest(id.message)) && m.rows == old(m.rows)
    ensures id.Bound? && (id.value < 1 || (getFault.None? && id.value !in old(m.rows))) ==>
      res == Failure(ErrNotFound([])) && m.rows == old(m.rows)
    ensures id.Bound? && id.value >= 1 && getFault.Some? ==>
      res.Failure? && res.error == HttpError(StatusInternalServerError, Text(InternalServerMessage)) && m.rows == old(m.rows)
    ensures id.Bound? && id.value >= 1 && getFault.None? && id.value in old(m.rows) && deleteFault.Some? ==>
      res.Failure? && res.error == HttpError(StatusInternalServerError, Text(InternalServerMessage)) && m.rows == old(m.rows)
    ensures id.Bound? && id.value >= 1 && getFault.None? && id.value in old(m.rows) && deleteFault.None? ==>
      && res == Reply(StatusOK, MessageBody(DeletedMessage(id.value)))
      && m.rows == old(m.rows) - {id.value}
  {
    if id.BindError? {
      return Failure(ErrBadRequest(id.message));
    }
    var r := m.Get(id.value, getFault);
    if r.Err? {
      return Failure(GetErrorResponse(r.error));
    }
    var transaction := r.value;
    var err := m.Delete(transaction.id, deleteFault);
    if err.Some? {
      return Failure(ErrInternalServer(err.value, "failed to delete transaction"));
    }
    res := Reply(StatusOK, MessageBody(DeletedMessage(transaction.id)));
  }

  /** The body of a successful delete, with the id written in decimal; the wording is the source's own. */
  function DeletedMessage(id: int): string
    requires id >= 1
  {
    "transaction record with id " + DecimalText(id) + " succesfully dedelte"
  }

  /** The digit of a value below ten. */
  function Digit(n: nat): char
    requires n < 10
  {
    "0123456789"[n]
  }

  /** The decimal text of a natural number, as `%v` prints it. */
  function DecimalText(n: nat): (s: string)
    ensures |s| >= 1
    ensures forall i :: 0 <= i < |s| ==> '0' <= s[i] <= '9'
    ensures n > 0 ==> s[0] != '0'
  {
    if n < 10 then [Digit(n)] else DecimalText(n / 10) + [Digit(n % 10)]
  }

  /** The value of a text of decimal digits. */
  function DecimalValue(s: string): int
    requires forall i :: 0 <= i < |s| ==> '0' <= s[i] <= '9'
  {
    if s == [] then 0 else 10 * DecimalValue(s[..|s| - 1]) + (s[|s| - 1] - '0') as int
  }

  /** A digit's character code, less that of '0', is its value. */
  lemma DigitValue(n: nat)
    requires n < 10
    ensures (Digit(n) - '0') as int == n
  {
    assert "0123456789"[n] as int == '0' as int + n;
  }

  /** The digits read back as the number they were printed from. */
  lemma {:induction false} DecimalRoundTrip(n: nat)
    ensures DecimalValue(DecimalText(n)) == n
  {
    var s := DecimalText(n);
    if n < 10 {
      DigitValue(n);
      assert s[..0] == [];
    } else {
      var q, r := n / 10, n % 10;
      assert n == 10 * q + r;
      DecimalRoundTrip(q);
      DigitValue(r);
      assert s == DecimalText(q) + [Digit(r)];
      assert s[..|s| - 1] == DecimalText(q);
      assert s[|s| - 1] == Digit(r);
    }
  }

  /** Distinct ids give distinct delete messages. */
  lemma DeletedMessageInjective(a: int, b: int)
    requires a >= 1 && b >= 1 && DeletedMessage(a) == DeletedMessage(b)
    ensures a == b
  {
    var prefix := "transaction record with id ";
    var ma, mb := DeletedMessage(a), DeletedMessage(b);
    var ta, tb := DecimalText(a), DecimalText(b);
    assert |ma| == |prefix| + |ta| + 20 && |mb| == |prefix| + |tb| + 20;
    assert ma[|prefix|..|prefix| + |ta|] == ta;
    assert mb[|prefix|..|prefix| + |tb|] == tb;
    DecimalRoundTrip(a);
    DecimalRoundTrip(b);
  }

  /**
   * Validates the path id and the body, fetches the record, patches it and
   * stores it with the fetched version; answers 200 with the record as
   * stored. With no concurrent writer in between, the stored version still
   * matches, so the compare-and-swap succeeds.
   */
  method UpdateByIdTransactionHandler(m: Data.TransactionModel, id: Binding<int>,
                                      body: Binding<(Option<int>, Option<string>)>, now: int,
                                      getFault: Option<string>, updateFault: Option<string>)
    returns (res: Response)
    requires m.Valid()
    modifies m
    ensures m.Valid() && m.nextId == old(m.nextId)
    ensures id.BindError? ==> res == Failure(ErrBadRequest(id.message)) && m.rows == old(m.rows)
    ensures id.Bound? && body.BindError? ==> res == Failure(ErrBadRequest(body.message)) && m.rows == old(m.rows)
    ensures id.Bound? && body.Bound? ==>
      var d := TransactionDto.TransactionUpdateDto(id.value, body.value.0, body.value.1);
      && (!TransactionDto.UpdateValid(d) ==>
           res == Failure(ErrFailedValidation(TransactionDto.UpdateErrors(d))) && m.rows == old(m.rows))
      && (TransactionDto.UpdateValid(d) && getFault.None? && id.value !in old(m.rows) ==>
           res == Failure(ErrNotFound([])) && m.rows == old(m.rows))
      && (TransactionDto.UpdateValid(d) && (getFault.Some? || (id.value in old(m.rows) && updateFault.Some?)) ==>
           res.Failure? && res.error == HttpError(StatusInternalServerError, Text(InternalServerMessage)) && m.rows == old(m.rows))
      && (TransactionDto.UpdateValid(d) && getFault.None? && updateFault.None? && id.value in old(m.rows) ==>
           var p := Patched(old(m.rows)[id.value], d.amount, RequestedStatus(d.status), now);
           && res == Reply(StatusOK, TransactionBody(p.(version := p.version + 1)))
           && m.rows == old(m.rows)[id.value := p.(version := p.version + 1)])
  {
    if id.BindError? {
      return Failure(ErrBadRequest(id.message));
    }
    if body.BindError? {
      return Failure(ErrBadRequest(body.message));
    }
    var d := TransactionDto.TransactionUpdateDto(id.value, body.value.0, body.value.1);
    if !TransactionDto.UpdateValid(d) {
      return Failure(ErrFailedValidation(TransactionDto.UpdateErrors(d)));
    }
    TransactionDto.UpdateValidIff(d);
    var r := m.Get(id.value, getFault);
    if r.Err? {
      return Failure(GetErrorResponse(r.error));
    }
    var transaction := PatchTransaction(r.value, d, now);
    PatchOfFetchedRowIsStored(m.rows, id.value, d.amount, RequestedStatus(d.status), now);
    var updated, err := m.Update(transaction, updateFault);
    if err.Some? {
      return Failure(UpdateErrorResponse(err.value));
    }
    res := Reply(StatusOK, TransactionBody(updated));
  }

  /**
   * Lists one page: applies the defaults, binds and validates the query,
   * resolves the plan field by field and answers 200 with the page (an
   * empty list rather than nil) and the metadata.
   */
  method GetAllTransactionHandler(m: Data.TransactionModel, query: Binding<ListQuery>, fault: Option<string>)
    returns (res: Response)
    requires m.Valid()
    ensures query.BindError? ==> res == Failure(ErrBadRequest(query.message))
    ensures query.Bound? && !TransactionDto.GetAllValid(BoundRequest(query.value)) ==>
      res == Failure(ErrFailedValidation(TransactionDto.GetAllErrors(BoundRequest(query.value))))
    ensures query.Bound? && TransactionDto.GetAllValid(BoundRequest(query.value)) && fault.Some? ==>
      res.Failure? && res.error == HttpError(StatusInternalServerError, Text(InternalServerMessage))
    ensures query.Bound? && TransactionDto.GetAllValid(BoundRequest(query.value)) && fault.None? ==>
      var p := Plan(query.value);
      var all := Listing(m.rows, m.nextId, p.filter.status, ParseColumn(SortColumn(p.sort.rawValue)).value,
                         ParseDirection(SortDirection(p.sort.rawValue)).value);
      var page := Page(all, p.pagination.limit.value, p.pagination.offset.value);
      res == Reply(StatusOK, ListBody(page, CalculateMetadata(if page == [] then 0 else |all|,
                                                              p.pagination.page, p.pagination.pageSize)))
  {
    var dto := TransactionDto.TransactionGetAllDto(
      TransactionDto.Pagination(None, None, None, None), TransactionDto.Sort(None, None, None), TransactionDto.Filter(None));
    dto := dto.(pagination := dto.pagination.(page := Some(1)));
    dto := dto.(pagination := dto.pagination.(pageSize := Some(10)));
    dto := dto.(sort := dto.sort.(rawValue := Some("id")));
    if query.BindError? {
      return Failure(ErrBadRequest(query.message));
    }
    dto := BindQuery(dto, query.value);
    if !TransactionDto.GetAllValid(dto) {
      return Failure(ErrFailedValidation(TransactionDto.GetAllErrors(dto)));
    }
    var page, pageSize, raw := dto.pagination.page.value, dto.pagination.pageSize.value, dto.sort.rawValue.value;
    dto := dto.(pagination := dto.pagination.(limit := dto.pagination.pageSize));
    dto := dto.(pagination := dto.pagination.(offset := Some(PageOffset(page, pageSize))));
    dto := dto.(sort := dto.sort.(direction := Some(SortDirection(raw))));
    dto := dto.(sort := dto.sort.(columnValue := Some(SortColumn(raw))));
    var q := StoreQuery(dto);
    assert q == Plan(query.value);
    var r := m.GetAll(q, fault);
    if r.Err? {
      return Failure(ErrInternalServer(r.error, "failed get all transactions"));
    }
    var transactions := r.value.transactions.GetOr([]);
    res := Reply(StatusOK, ListBody(transactions, r.value.metadata));
  }
}
