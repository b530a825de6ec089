/**
 * The value-typed list request, the one the store's list operation reads:
 * page and page size are plain ints (0 meaning "not given"), the sort token
 * and the status filter are plain strings ("" meaning "not given"), and the
 * limit, offset, resolved column and resolved direction are pointers the
 * handler fills in.
 */
module GetAllDto {
  import opened Wrappers
  import opened Tags

  /** The sort tokens this variant accepts: `id` and `-id` are not among them. */
  const SortTokens: seq<string> := ["amount", "status", "created_at", "-amount", "-status", "-created_at", ""]
  const StatusValues: seq<string> := ["pending", "failed", "success", ""]

  datatype Pagination = Pagination(page: int, pageSize: int, limit: Option<int>, offset: Option<int>)
  datatype Sort = Sort(rawValue: string, columnValue: Option<string>, direction: Option<string>)
  datatype Filter = Filter(status: string)
  datatype TransactionGetAllDto = TransactionGetAllDto(pagination: Pagination, sort: Sort, filter: Filter)

  const PageTags: seq<NumTag> := [OmitEmpty, Min(1), Max(1000)]
  const PageSizeTags: seq<NumTag> := [OmitEmpty, Min(1), Max(100)]
  const RawValueTags: seq<TextTag> := [TextOmitEmpty, OneOf(SortTokens)]
  const StatusTags: seq<TextTag> := [TextOmitEmpty, OneOf(StatusValues)]

  function GetAllChecks(d: TransactionGetAllDto): seq<Check> {
    [ NumCheck("Page", PageTags, PlainInt(d.pagination.page)),
      NumCheck("PageSize", PageSizeTags, PlainInt(d.pagination.pageSize)),
      TextCheck("RawValue", RawValueTags, PlainString(d.sort.rawValue)),
      TextCheck("Status", StatusTags, PlainString(d.filter.status)) ]
  }

  predicate GetAllValid(d: TransactionGetAllDto) {
    && NumValid(PageTags, PlainInt(d.pagination.page))
    && NumValid(PageSizeTags, PlainInt(d.pagination.pageSize))
    && TextValid(RawValueTags, PlainString(d.sort.rawValue))
    && TextValid(StatusTags, PlainString(d.filter.status))
  }

  function GetAllErrors(d: TransactionGetAllDto): (errs: map<string, string>)
    ensures errs == map[] <==> GetAllValid(d)
  {
    var checks := GetAllChecks(d);
    ReportEmpty(checks);
    assert GetAllValid(d) <==>
      checks[0].failed.None? && checks[1].failed.None? && checks[2].failed.None? && checks[3].failed.None?;
    Report(checks)
  }

  /**
   * The page is 0 or in 1..1000, the page size 0 or in 1..100, the sort
   * token "" or one of the six over amount, status and created_at, and the
   * status filter "" or one of the three status values.
   */
  lemma GetAllValidIff(d: TransactionGetAllDto)
    ensures GetAllValid(d) <==>
      && (d.pagination.page == 0 || 1 <= d.pagination.page <= 1000)
      && (d.pagination.pageSize == 0 || 1 <= d.pagination.pageSize <= 100)
      && d.sort.rawValue in SortTokens
      && d.filter.status in StatusValues
  {
    OmitRangeIff(1, 1000, PlainInt(d.pagination.page));
    OmitRangeIff(1, 100, PlainInt(d.pagination.pageSize));
    OmitOneOfIff(SortTokens, PlainString(d.sort.rawValue));
    OmitOneOfIff(StatusValues, PlainString(d.filter.status));
  }

  /** The `id` column cannot be asked for through this variant. */
  lemma IdSortRejected(d: TransactionGetAllDto)
    requires d.sort.rawValue == "id" || d.sort.rawValue == "-id"
    ensures !GetAllValid(d)
  {
    GetAllValidIff(d);
  }
}
