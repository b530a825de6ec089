/**
 * The request types of the transaction endpoints and the rules their struct
 * tags state, as predicates. Optional request fields are Go pointers; they
 * are `Option` values here.
 */
module TransactionDto {
  import opened Wrappers
  import opened Tags

  /** The three status values a request may name. */
  const StatusValues: seq<string> := ["pending", "failed", "success"]

  /** The sort tokens a list request may name: four columns, each optionally descending. */
  const SortTokens: seq<string> :=
    ["id", "amount", "status", "created_at", "-id", "-amount", "-status", "-created_at"]

  // ---- create ---------------------------------------------------------------

  datatype TransactionCreateDto = TransactionCreateDto(userId: int, amount: int)

  const CreateUserIdTags: seq<NumTag> := [Required, Min(1)]
  const CreateAmountTags: seq<NumTag> := [Required, Min(0)]

  function CreateChecks(d: TransactionCreateDto): seq<Check> {
    [ NumCheck("user_id", CreateUserIdTags, PlainInt(d.userId)),
      NumCheck("amount", CreateAmountTags, PlainInt(d.amount)) ]
  }

  predicate CreateValid(d: TransactionCreateDto) {
    NumValid(CreateUserIdTags, PlainInt(d.userId)) && NumValid(CreateAmountTags, PlainInt(d.amount))
  }

  /** The failed rules of a create request, by field. */
  function CreateErrors(d: TransactionCreateDto): (errs: map<string, string>)
    ensures errs == map[] <==> CreateValid(d)
  {
    var checks := CreateChecks(d);
    ReportEmpty(checks);
    assert CreateValid(d) <==> checks[0].failed.None? && checks[1].failed.None?;
    Report(checks)
  }

  /**
   * `required` rejects the zero value, so `required,min=0` on the amount
   * accepts exactly the amounts from 1 up: a create request is valid exactly
   * when both the user id and the amount are at least 1.
   */
  lemma CreateValidIff(d: TransactionCreateDto)
    ensures CreateValid(d) <==> d.userId >= 1 && d.amount >= 1
  {
    RequiredMinIff(1, d.userId);
    RequiredMinIff(0, d.amount);
  }

  // ---- update ---------------------------------------------------------------

  datatype TransactionUpdateDto =
    TransactionUpdateDto(transactionId: int, amount: Option<int>, status: Option<string>)

  const UpdateIdTags: seq<NumTag> := [Required, Min(1)]
  const UpdateAmountTags: seq<NumTag> := [OmitEmpty, Min(0)]
  const UpdateStatusTags: seq<TextTag> := [TextOmitEmpty, OneOf(StatusValues)]

  function UpdateChecks(d: TransactionUpdateDto): seq<Check> {
    [ NumCheck("id", UpdateIdTags, PlainInt(d.transactionId)),
      NumCheck("amount", UpdateAmountTags, IntPointer(d.amount)),
      TextCheck("status", UpdateStatusTags, StringPointer(d.status)) ]
  }

  predicate UpdateValid(d: TransactionUpdateDto) {
    && NumValid(UpdateIdTags, PlainInt(d.transactionId))
    && NumValid(UpdateAmountTags, IntPointer(d.amount))
    && TextValid(UpdateStatusTags, StringPointer(d.status))
  }

  function UpdateErrors(d: TransactionUpdateDto): (errs: map<string, string>)
    ensures errs == map[] <==> UpdateValid(d)
  {
    var checks := UpdateChecks(d);
    ReportEmpty(checks);
    assert UpdateValid(d) <==> checks[0].failed.None? && checks[1].failed.None? && checks[2].failed.None?;
    Report(checks)
  }

  /**
   * An update request names a path id of at least 1; an absent amount or
   * status is not checked, a present amount is at least 0 (0 included: a
   * pointer to 0 holds a value) and a present status is one of the three.
   */
  lemma UpdateValidIff(d: TransactionUpdateDto)
    ensures UpdateValid(d) <==>
      && d.transactionId >= 1
      && (d.amount.Some? ==> d.amount.value >= 0)
      && (d.status.Some? ==> d.status.value in StatusValues)
  {
    RequiredMinIff(1, d.transactionId);
    OmitMinIff(0, d.amount);
    OmitOneOfIff(StatusValues, StringPointer(d.status));
  }

  // ---- list (the pointer-typed variant the list handler fills in) -----------

  datatype Pagination = Pagination(page: Option<int>, pageSize: Option<int>, limit: Option<int>, offset: Option<int>)
  datatype Sort = Sort(rawValue: Option<string>, columnValue: Option<string>, direction: Option<string>)
  datatype Filter = Filter(status: Option<string>)
  datatype TransactionGetAllDto = TransactionGetAllDto(pagination: Pagination, sort: Sort, filter: Filter)

  const PageTags: seq<NumTag> := [OmitEmpty, Min(1), Max(1000)]
  const PageSizeTags: seq<NumTag> := [OmitEmpty, Min(1), Max(100)]
  const SortByTags: seq<TextTag> := [TextOmitEmpty, OneOf(SortTokens)]
  const FilterStatusTags: seq<TextTag> := [TextOmitEmpty, OneOf(StatusValues)]

  function GetAllChecks(d: TransactionGetAllDto): seq<Check> {
    [ NumCheck("page", PageTags, IntPointer(d.pagination.page)),
      NumCheck("page_size", PageSizeTags, IntPointer(d.pagination.pageSize)),
      TextCheck("sort_by", SortByTags, StringPointer(d.sort.rawValue)),
      TextCheck("status", FilterStatusTags, StringPointer(d.filter.status)) ]
  }

  predicate GetAllValid(d: TransactionGetAllDto) {
    && NumValid(PageTags, IntPointer(d.pagination.page))
    && NumValid(PageSizeTags, IntPointer(d.pagination.pageSize))
    && TextValid(SortByTags, StringPointer(d.sort.rawValue))
    && TextValid(FilterStatusTags, StringPointer(d.filter.status))
  }

  function GetAllErrors(d: TransactionGetAllDto): (errs: map<string, string>)
    ensures errs == map[] <==> GetAllValid(d)
  {
    var checks := GetAllChecks(d);
    ReportEmpty(checks);
    assert GetAllValid(d) <==>
      checks[0].failed.None? && checks[1].failed.None? && checks[2].failed.None? && checks[3].failed.None?;
    Report(checks)
  }

  /**
   * A list request has a page that is absent or in 1..1000, a page size that
   * is absent or in 1..100, a sort token that is absent or one of the eight,
   * and a status filter that is absent or one of the three. The untagged
   * fields (limit, offset, column, direction) are not checked.
   */
  lemma GetAllValidIff(d: TransactionGetAllDto)
    ensures GetAllValid(d) <==>
      && (d.pagination.page.Some? ==> 1 <= d.pagination.page.value <= 1000)
      && (d.pagination.pageSize.Some? ==> 1 <= d.pagination.pageSize.value <= 100)
      && (d.sort.rawValue.Some? ==> d.sort.rawValue.value in SortTokens)
      && (d.filter.status.Some? ==> d.filter.status.value in StatusValues)
  {
    OmitRangeIff(1, 1000, IntPointer(d.pagination.page));
    OmitRangeIff(1, 100, IntPointer(d.pagination.pageSize));
    OmitOneOfIff(SortTokens, StringPointer(d.sort.rawValue));
    OmitOneOfIff(StatusValues, StringPointer(d.filter.status));
  }

  // ---- path id --------------------------------------------------------------

  datatype TransactionParamIdDto = TransactionParamIdDto(transactionId: int)

  const ParamIdTags: seq<NumTag> := [Required, Min(1)]

  predicate ParamIdValid(d: TransactionParamIdDto) {
    NumValid(ParamIdTags, PlainInt(d.transactionId))
  }

  /** A path id is valid exactly when it is at least 1. */
  lemma ParamIdValidIff(d: TransactionParamIdDto)
    ensures ParamIdValid(d) <==> d.transactionId >= 1
  {
    RequiredMinIff(1, d.transactionId);
  }
}
