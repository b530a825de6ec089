/** The sort-token and page helpers of the API layer. */
module Helpers {
  import opened Strings
  import TransactionDto
  import GetAllDto

  /** The column names a resolved sort may carry. */
  const Columns: seq<string> := ["id", "amount", "status", "created_at"]

  /** The column of a sort token: the token without one leading `-`. */
  function SortColumn(value: string): (column: string)
    ensures HasPrefix(value, "-") ==> "-" + column == value
    ensures !HasPrefix(value, "-") ==> column == value
  {
    TrimPrefix(value, "-")
  }

  /** The direction of a sort token: descending exactly when it starts with `-`. */
  function SortDirection(value: string): (direction: string)
    ensures direction == "DESC" || direction == "ASC"
    ensures direction == "DESC" <==> HasPrefix(value, "-")
  {
    if HasPrefix(value, "-") then "DESC" else "ASC"
  }

  /** The number of rows before the first row of a 1-based page. */
  function PageOffset(page: int, pageSize: int): (offset: int)
    ensures page == 1 ==> offset == 0
    ensures page >= 1 && pageSize >= 0 ==> offset >= 0
  {
    (page - 1) * pageSize
  }

  /** Consecutive pages start exactly one page size apart. */
  lemma NextPageOffset(page: int, pageSize: int)
    ensures PageOffset(page + 1, pageSize) == PageOffset(page, pageSize) + pageSize
  {
    assert page * pageSize == (page - 1) * pageSize + pageSize;
  }

  /**
   * For a page and page size the request rules admit, the offset lies in
   * 0..99900, far inside the range of a 64-bit int, so the multiplication
   * cannot wrap around.
   */
  lemma ValidatedOffsetInRange(page: int, pageSize: int)
    requires 1 <= page <= 1000 && 1 <= pageSize <= 100
    ensures 0 <= PageOffset(page, pageSize) <= 99900
  {
    assert (page - 1) * pageSize <= 999 * pageSize <= 999 * 100;
  }

  /** A token is recovered from its column and direction: the pair names exactly one token. */
  lemma {:induction false} TokenReassembles(value: string)
    ensures value == (if SortDirection(value) == "DESC" then "-" else "") + SortColumn(value)
  {
  }

  /** Two tokens with the same column and direction are the same token. */
  lemma ResolutionInjective(a: string, b: string)
    requires SortColumn(a) == SortColumn(b) && SortDirection(a) == SortDirection(b)
    ensures a == b
  {
    TokenReassembles(a);
    TokenReassembles(b);
  }

  /** Every token of the list request's allow-list resolves to one of the four column names. */
  lemma AllowListedTokensResolve(token: string)
    requires token in TransactionDto.SortTokens
    ensures SortColumn(token) in Columns
  {
    ColumnsOfTokens();
  }

  /**
   * In the value-typed variant, a non-empty accepted token resolves to
   * amount, status or created_at, and its direction is one of the two
   * keywords: no other text can reach the ORDER BY clause.
   */
  lemma ValueAllowListedTokensResolve(token: string)
    requires token in GetAllDto.SortTokens && token != ""
    ensures SortColumn(token) in Columns[1..]
    ensures SortDirection(token) in ["ASC", "DESC"]
  {
    ColumnsOfTokens();
    assert Columns[1..] == ["amount", "status", "created_at"];
  }

  /** The column each of the eight tokens resolves to. */
  lemma ColumnsOfTokens()
    ensures SortColumn("id") == "id" && SortColumn("-id") == "id"
    ensures SortColumn("amount") == "amount" && SortColumn("-amount") == "amount"
    ensures SortColumn("status") == "status" && SortColumn("-status") == "status"
    ensures SortColumn("created_at") == "created_at" && SortColumn("-created_at") == "created_at"
  {
    assert "id"[..1] == "i";
    assert "-id"[1..] == "id";
    assert "-amount"[1..] == "amount";
    assert "-status"[1..] == "status";
    assert "-created_at"[1..] == "created_at";
  }
}
