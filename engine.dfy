/**
 * What the database does with the list query over an in-memory table keyed
 * by id. The query keeps the rows whose status equals the filter, or every
 * row when the filter is empty. It orders them by one chosen column in the
 * chosen direction, breaking ties by ascending id. It returns the page of at
 * most `limit` rows that starts `offset` rows in. Each returned row also
 * carries the count of all matching rows, before the page is cut.
 */
module Engine {
  import opened Wrappers
  import opened Records

  /** The columns of the transactions table, each of which the ORDER BY can name. */
  datatype Column = ById | ByUserId | ByAmount | ByStatus | ByVersion | ByCreatedAt | ByUpdatedAt
  datatype Direction = Asc | Desc

  function ColumnName(c: Column): string {
    match c
    case ById => "id"
    case ByUserId => "user_id"
    case ByAmount => "amount"
    case ByStatus => "status"
    case ByVersion => "version"
    case ByCreatedAt => "created_at"
    case ByUpdatedAt => "updated_at"
  }

  function DirectionKeyword(d: Direction): string {
    match d
    case Asc => "ASC"
    case Desc => "DESC"
  }

  /**
   * The column an ORDER BY text names: one of the seven column names of the
   * table, written in lower case. Text naming no column of the table stands
   * for a query the database rejects.
   */
  function ParseColumn(text: string): (c: Option<Column>)
    ensures c.Some? ==> ColumnName(c.value) == text
    ensures c.None? ==> forall col: Column :: ColumnName(col) != text
  {
    if text == "id" then Some(ById)
    else if text == "user_id" then Some(ByUserId)
    else if text == "amount" then Some(ByAmount)
    else if text == "status" then Some(ByStatus)
    else if text == "version" then Some(ByVersion)
    else if text == "created_at" then Some(ByCreatedAt)
    else if text == "updated_at" then Some(ByUpdatedAt)
    else None
  }

  function ParseDirection(text: string): (d: Option<Direction>)
    ensures d.Some? ==> DirectionKeyword(d.value) == text
    ensures d.None? ==> forall dir: Direction :: DirectionKeyword(dir) != text
  {
    if text == "ASC" then Some(Asc) else if text == "DESC" then Some(Desc) else None
  }

  /** Strict byte-wise order on strings. */
  predicate TextLess(a: string, b: string) {
    if a == [] then b != []
    else if b == [] then false
    else if a[0] != b[0] then a[0] < b[0]
    else TextLess(a[1..], b[1..])
  }

  lemma {:induction false} TextLessIrreflexive(a: string)
    ensures !TextLess(a, a)
  {
    if a != [] {
      TextLessIrreflexive(a[1..]);
    }
  }

  /** The position of a status in the byte order of the status texts. */
  function StatusRank(s: Status): int {
    match s
    case Failed => 0
    case Pending => 1
    case Success => 2
  }

  /** Ordering by status rank is ordering by the stored status text. */
  lemma StatusRankIsTextOrder(a: Status, b: Status)
    ensures StatusRank(a) < StatusRank(b) <==> TextLess(StatusText(a), StatusText(b))
  {
    if a == b {
      TextLessIrreflexive(StatusText(a));
    }
  }

  /** The value a row is ordered by under a column. */
  function Key(t: Transaction, c: Column): int {
    match c
    case ById => t.id
    case ByUserId => t.userId
    case ByAmount => t.amount
    case ByStatus => StatusRank(t.status)
    case ByVersion => t.version
    case ByCreatedAt => t.createdAt
    case ByUpdatedAt => t.updatedAt
  }

  /** `a` comes before `b`: by the key in the given direction, then by ascending id. */
  predicate Before(a: Transaction, b: Transaction, c: Column, d: Direction) {
    var ka, kb := Key(a, c), Key(b, c);
    if ka != kb then (if d == Asc then ka < kb else kb < ka) else a.id < b.id
  }

  /** Rows with different ids are always ordered one way or the other. */
  lemma BeforeTotal(a: Transaction, b: Transaction, c: Column, d: Direction)
    requires a.id != b.id
    ensures Before(a, b, c, d) || Before(b, a, c, d)
  {
  }

  lemma BeforeTransitive(a: Transaction, b: Transaction, x: Transaction, c: Column, d: Direction)
    requires Before(a, b, c, d) && Before(b, x, c, d)
    ensures Before(a, x, c, d)
  {
  }

  /** No two rows come each before the other, and no row comes before itself. */
  lemma BeforeNotBoth(a: Transaction, b: Transaction, c: Column, d: Direction)
    ensures !(Before(a, b, c, d) && Before(b, a, c, d))
    ensures !Before(a, a, c, d)
  {
  }

  predicate Sorted(s: seq<Transaction>, c: Column, d: Direction) {
    forall i, j :: 0 <= i < j < |s| ==> Before(s[i], s[j], c, d)
  }

  predicate AscendingIds(s: seq<Transaction>) {
    forall i, j :: 0 <= i < j < |s| ==> s[i].id < s[j].id
  }

  predicate DistinctIds(s: seq<Transaction>) {
    forall i, j :: 0 <= i < j < |s| ==> s[i].id != s[j].id
  }

  /** The status filter: the empty filter matches every row. */
  predicate Matches(t: Transaction, filter: string) {
    StatusText(t.status) == filter || filter == ""
  }

  // ---- the matching rows, in order ------------------------------------------

  /** The stored rows with ids in lo..hi-1 that match the filter, by ascending id. */
  function Scan(rows: map<int, Transaction>, lo: int, hi: int, filter: string): seq<Transaction>
    decreases hi - lo
  {
    if lo >= hi then []
    else if lo in rows && Matches(rows[lo], filter) then [rows[lo]] + Scan(rows, lo + 1, hi, filter)
    else Scan(rows, lo + 1, hi, filter)
  }

  /** Every stored row sits under its own id. */
  ghost predicate KeyedById(rows: map<int, Transaction>) {
    forall k :: k in rows ==> rows[k].id == k
  }

  /** The ids of the stored rows in lo..hi-1 that match the filter. */
  function MatchingIds(rows: map<int, Transaction>, lo: int, hi: int, filter: string): set<int> {
    set k | k in rows && lo <= k < hi && Matches(rows[k], filter)
  }

  lemma {:induction false} ScanMembers(rows: map<int, Transaction>, lo: int, hi: int, filter: string, t: Transaction)
    requires KeyedById(rows)
    ensures t in Scan(rows, lo, hi, filter) <==>
      lo <= t.id < hi && t.id in rows && rows[t.id] == t && Matches(t, filter)
    decreases hi - lo
  {
    if lo < hi {
      ScanMembers(rows, lo + 1, hi, filter, t);
    }
  }

  lemma {:induction false} ScanAscending(rows: map<int, Transaction>, lo: int, hi: int, filter: string)
    requires KeyedById(rows)
    ensures AscendingIds(Scan(rows, lo, hi, filter))
    decreases hi - lo
  {
    if lo < hi {
      ScanAscending(rows, lo + 1, hi, filter);
      var rest := Scan(rows, lo + 1, hi, filter);
      if lo in rows && Matches(rows[lo], filter) {
        var s := [rows[lo]] + rest;
        assert s == Scan(rows, lo, hi, filter);
        assert rows[lo].id == lo;
        forall i, j | 0 <= i < j < |s| ensures s[i].id < s[j].id {
          if i == 0 {
            assert s[j] == rest[j - 1] && s[j] in rest;
            ScanMembers(rows, lo + 1, hi, filter, s[j]);
          } else {
            assert s[i] == rest[i - 1] && s[j] == rest[j - 1];
          }
        }
      }
    }
  }

  lemma {:induction false} ScanCount(rows: map<int, Transaction>, lo: int, hi: int, filter: string)
    ensures |Scan(rows, lo, hi, filter)| == |MatchingIds(rows, lo, hi, filter)|
    decreases hi - lo
  {
    if lo >= hi {
      assert MatchingIds(rows, lo, hi, filter) == {};
    } else {
      ScanCount(rows, lo + 1, hi, filter);
      if lo in rows && Matches(rows[lo], filter) {
        assert MatchingIds(rows, lo, hi, filter) == {lo} + MatchingIds(rows, lo + 1, hi, filter);
      } else {
        assert MatchingIds(rows, lo, hi, filter) == MatchingIds(rows, lo + 1, hi, filter);
      }
    }
  }

  // ---- ordering -------------------------------------------------------------

  /** Inserts a row into an ordered sequence at its place. */
  function InsertRow(x: Transaction, s: seq<Transaction>, c: Column, d: Direction): (r: seq<Transaction>)
    ensures multiset(r) == multiset(s) + multiset{x}
  {
    if s == [] then [x]
    else if Before(x, s[0], c, d) then [x] + s
    else
      assert s == [s[0]] + s[1..];
      [s[0]] + InsertRow(x, s[1..], c, d)
  }

  /** The rows of `s` in order. */
  function SortRows(s: seq<Transaction>, c: Column, d: Direction): (r: seq<Transaction>)
    ensures multiset(r) == multiset(s)
  {
    if s == [] then []
    else
      assert s == [s[0]] + s[1..];
      InsertRow(s[0], SortRows(s[1..], c, d), c, d)
  }

  lemma {:induction false} InsertRowSorted(x: Transaction, s: seq<Transaction>, c: Column, d: Direction)
    requires Sorted(s, c, d)
    requires forall i :: 0 <= i < |s| ==> s[i].id != x.id
    ensures Sorted(InsertRow(x, s, c, d), c, d)
  {
    if s == [] {
    } else if Before(x, s[0], c, d) {
      forall j | 1 <= j < |s| ensures Before(x, s[j], c, d) {
        BeforeTransitive(x, s[0], s[j], c, d);
      }
    } else {
      BeforeTotal(x, s[0], c, d);
      InsertRowSorted(x, s[1..], c, d);
      var r := InsertRow(x, s[1..], c, d);
      forall j | 0 <= j < |r| ensures Before(s[0], r[j], c, d) {
        assert r[j] in multiset(r);
        if r[j] != x {
          assert r[j] in s[1..];
        }
      }
      var out := [s[0]] + r;
      forall i, j | 0 <= i < j < |out| ensures Before(out[i], out[j], c, d) {
        if i > 0 {
          assert out[i] == r[i - 1] && out[j] == r[j - 1];
        }
      }
    }
  }

  lemma {:induction false} SortRowsSorted(s: seq<Transaction>, c: Column, d: Direction)
    requires DistinctIds(s)
    ensures Sorted(SortRows(s, c, d), c, d)
  {
    if s != [] {
      SortRowsSorted(s[1..], c, d);
      var t := SortRows(s[1..], c, d);
      forall i | 0 <= i < |t| ensures t[i].id != s[0].id {
        assert t[i] in multiset(s[1..]);
        var k :| 0 <= k < |s[1..]| && s[1..][k] == t[i];
        assert s[k + 1] == t[i];
      }
      InsertRowSorted(s[0], t, c, d);
    }
  }

  /** Two ordered sequences holding the same rows are the same sequence. */
  lemma {:induction false} SortedUnique(s: seq<Transaction>, t: seq<Transaction>, c: Column, d: Direction)
    requires Sorted(s, c, d) && Sorted(t, c, d)
    requires forall x :: x in s <==> x in t
    ensures s == t
    decreases |s|
  {
    assert t != [] ==> t[0] in t;
    assert s != [] ==> s[0] in s;
    if s != [] && t != [] {
      // the first rows coincide: each comes before the other unless they are equal
      var j :| 0 <= j < |s| && s[j] == t[0];
      var k :| 0 <= k < |t| && t[k] == s[0];
      assert j == 0 || Before(s[0], t[0], c, d);
      assert k == 0 || Before(t[0], s[0], c, d);
      BeforeNotBoth(s[0], t[0], c, d);
      forall x ensures x in s[1..] <==> x in t[1..] {
        if x in s[1..] {
          var j :| 0 <= j < |s[1..]| && s[1..][j] == x;
          BeforeNotBoth(s[0], s[j + 1], c, d);
          assert x == s[j + 1] && x in s && x in t;
          var k :| 0 <= k < |t| && t[k] == x;
          assert t[1..][k - 1] == x;
        }
        if x in t[1..] {
          var k :| 0 <= k < |t[1..]| && t[1..][k] == x;
          BeforeNotBoth(t[0], t[k + 1], c, d);
          assert x == t[k + 1] && x in t && x in s;
          var j :| 0 <= j < |s| && s[j] == x;
          assert s[1..][j - 1] == x;
        }
      }
      SortedUnique(s[1..], t[1..], c, d);
      assert s == [s[0]] + s[1..] && t == [t[0]] + t[1..];
    }
  }

  /** All matching rows with ids below `bound`, in the order of the query. */
  function Listing(rows: map<int, Transaction>, bound: int, filter: string, c: Column, d: Direction): seq<Transaction> {
    SortRows(Scan(rows, 1, bound, filter), c, d)
  }

  /**
   * The listing holds exactly the stored rows with ids in 1..bound-1 that
   * match the filter, each once, ordered by the column and direction with
   * ties broken by ascending id; its length is the number of such rows.
   */
  lemma ListingSpec(rows: map<int, Transaction>, bound: int, filter: string, c: Column, d: Direction)
    requires KeyedById(rows)
    ensures var all := Listing(rows, bound, filter, c, d);
      && Sorted(all, c, d)
      && (forall t :: t in all <==> 1 <= t.id < bound && t.id in rows && rows[t.id] == t && Matches(t, filter))
      && |all| == |MatchingIds(rows, 1, bound, filter)|
  {
    var s := Scan(rows, 1, bound, filter);
    ScanAscending(rows, 1, bound, filter);
    ScanCount(rows, 1, bound, filter);
    SortRowsSorted(s, c, d);
    var all := SortRows(s, c, d);
    assert |all| == |multiset(all)| == |multiset(s)| == |s|;
    forall t ensures t in all <==> 1 <= t.id < bound && t.id in rows && rows[t.id] == t && Matches(t, filter) {
      assert t in all <==> t in multiset(all);
      ScanMembers(rows, 1, bound, filter, t);
    }
  }

  // ---- the page -------------------------------------------------------------

  function Min(a: int, b: int): int {
    if a <= b then a else b
  }

  /** The rows LIMIT `limit` OFFSET `offset` keeps. */
  function Page(all: seq<Transaction>, limit: int, offset: int): (page: seq<Transaction>)
    requires limit >= 0 && offset >= 0
    ensures |page| == if offset >= |all| then 0 else Min(limit, |all| - offset)
    ensures forall i :: 0 <= i < |page| ==> page[i] == all[offset + i]
  {
    if offset >= |all| then [] else all[offset .. Min(offset + limit, |all|)]
  }

  /** Two consecutive pages of one size make up the page of twice that size. */
  lemma ConsecutivePages(all: seq<Transaction>, size: int, offset: int)
    requires size >= 0 && offset >= 0
    ensures Page(all, size, offset) + Page(all, size, offset + size) == Page(all, 2 * size, offset)
  {
    var a, b, ab := Page(all, size, offset), Page(all, size, offset + size), Page(all, 2 * size, offset);
    assert |a + b| == |ab|;
    forall i | 0 <= i < |ab| ensures (a + b)[i] == ab[i] {
      if i >= |a| {
        assert (a + b)[i] == b[i - |a|];
      }
    }
  }

  /**
   * A page size of 10 over 25 matching rows gives pages of 10, 10 and 5
   * rows at offsets 0, 10 and 20, and an empty page beyond.
   */
  lemma TwentyFiveRowsInPagesOfTen(all: seq<Transaction>)
    requires |all| == 25
    ensures |Page(all, 10, 0)| == 10 && |Page(all, 10, 10)| == 10
    ensures |Page(all, 10, 20)| == 5 && |Page(all, 10, 30)| == 0
  {
  }

  /** The rows the query returns: each carries the count of all matching rows. */
  function ResultRows(all: seq<Transaction>, limit: int, offset: int): (rs: seq<(int, Transaction)>)
    requires limit >= 0 && offset >= 0
    ensures |rs| == |Page(all, limit, offset)|
    ensures forall i :: 0 <= i < |rs| ==> rs[i] == (|all|, Page(all, limit, offset)[i])
  {
    var page := Page(all, limit, offset);
    seq(|page|, i requires 0 <= i < |page| => (|all|, page[i]))
  }
}
