/** The generic searchable, paginated table (`src/components/DataTable.tsx`).
    A row is seen through `values`, the strings `String(value)` gives for each
    of `Object.values(row)`. */
module DataTable {
  import opened Seqs
  import opened Text

  function ValueMatches(search: string): string -> bool {
    (v: string) => MatchesText(v, search)
  }

  function RowMatches<T>(values: T -> seq<string>, search: string): T -> bool {
    (row: T) => AnyWhere(ValueMatches(search), values(row))
  }

  /** `filteredData`: the rows one of whose values contains the search text,
      ignoring case, in their original order. */
  function FilteredRows<T>(rows: seq<T>, values: T -> seq<string>, search: string): (r: seq<T>)
    ensures IsSubsequence(r, rows)
    ensures forall k :: 0 <= k < |r| ==> r[k] in rows && exists j :: 0 <= j < |values(r[k])| && MatchesText(values(r[k])[j], search)
    ensures forall k :: 0 <= k < |rows| && (exists j :: 0 <= j < |values(rows[k])| && MatchesText(values(rows[k])[j], search)) ==> rows[k] in r
    ensures forall x :: x in rows ==> multiset(r)[x] == if RowMatches(values, search)(x) then multiset(rows)[x] else 0
  {
    FilterMultiset(RowMatches(values, search), rows);
    Filter(RowMatches(values, search), rows)
  }

  /** An empty search keeps every row that has at least one value (every row
      has its `id`). */
  lemma EmptySearchKeepsAll<T>(rows: seq<T>, values: T -> seq<string>)
    requires forall k :: 0 <= k < |rows| ==> |values(rows[k])| > 0
    ensures FilteredRows(rows, values, "") == rows
  {
    forall k | 0 <= k < |rows| ensures RowMatches(values, "")(rows[k]) {
      EmptyQueryMatches(values(rows[k])[0]);
      assert ValueMatches("")(values(rows[k])[0]);
    }
  }

  function Min(a: int, b: int): int {
    if a <= b then a else b
  }

  /** `Array.prototype.slice(start, end)` for non-negative bounds: both are
      clamped to the length, and a backwards range is empty. */
  function Slice<T>(s: seq<T>, start: nat, end: nat): (r: seq<T>)
    ensures |r| == if Min(end, |s|) > Min(start, |s|) then Min(end, |s|) - Min(start, |s|) else 0
    ensures forall k :: 0 <= k < |r| ==> start + k < |s| && r[k] == s[start + k]
  {
    var a := Min(start, |s|);
    var b := Min(end, |s|);
    if a < b then s[a..b] else []
  }

  /** `paginatedData`: page `page` of `n` rows each. */
  function Paginated<T>(rows: seq<T>, page: nat, n: nat): (r: seq<T>)
    requires n > 0
    ensures |r| <= n
    ensures |r| == if Min((page + 1) * n, |rows|) > page * n then Min((page + 1) * n, |rows|) - page * n else 0
    ensures forall k :: 0 <= k < |r| ==> r[k] == rows[page * n + k]
  {
    Slice(rows, page * n, (page + 1) * n)
  }

  /** `Math.ceil(len / n)`. */
  function TotalPages(len: nat, n: nat): (r: nat)
    requires n > 0
    ensures len <= r * n
    ensures r == 0 || (r - 1) * n < len
  {
    (len + n - 1) / n
  }

  /** Every row is on exactly one page: row `i` is entry `i % n` of page
      `i / n`, and that page exists. */
  lemma RowOnItsPage<T>(rows: seq<T>, n: nat, i: nat)
    requires n > 0 && i < |rows|
    ensures i / n < TotalPages(|rows|, n)
    ensures i % n < |Paginated(rows, i / n, n)| && Paginated(rows, i / n, n)[i % n] == rows[i]
  {
    var p := i / n;
    var t := TotalPages(|rows|, n);
    assert p * n + i % n == i;
    if p >= t {
      assert t * n <= p * n by {
        MulMonotone(t, p, n);
      }
      assert false;
    }
    assert (p + 1) * n == p * n + n;
  }

  lemma MulMonotone(a: nat, b: nat, n: nat)
    requires a <= b
    ensures a * n <= b * n
  {
  }

  /** "Previous": `Math.max(0, p - 1)`. */
  function PreviousPage(page: int): (r: int)
    ensures r >= 0
    ensures page > 0 ==> r == page - 1
    ensures page <= 0 ==> r == 0
  {
    if page - 1 > 0 then page - 1 else 0
  }

  /** "Next": `Math.min(totalPages - 1, p + 1)`. */
  function NextPage(page: int, totalPages: int): (r: int)
    ensures r <= totalPages - 1 && r <= page + 1
    ensures r == page + 1 || r == totalPages - 1
  {
    if totalPages - 1 < page + 1 then totalPages - 1 else page + 1
  }

  /** From a page in range, "previous" and "next" stay in range. */
  lemma PagingStaysInRange(page: int, totalPages: int)
    requires 0 <= page < totalPages
    ensures 0 <= PreviousPage(page) < totalPages
    ensures 0 <= NextPage(page, totalPages) < totalPages
  {
  }

  /** The pager is shown only when there is more than one page. */
  predicate ControlsShown(totalPages: nat) {
    totalPages > 1
  }

  /** The pager shows exactly when the rows do not fit on one page. */
  lemma ControlsShownIff(len: nat, n: nat)
    requires n > 0
    ensures ControlsShown(TotalPages(len, n)) <==> len > n
  {
    var t := TotalPages(len, n);
    if t > 1 {
      MulMonotone(1, t - 1, n);
    } else {
      MulMonotone(t, 1, n);
    }
  }

  /** The "Mostrando a - b" figures, counted from 1. */
  function RangeStart(page: nat, n: nat): (r: nat)
    ensures r >= 1
  {
    page * n + 1
  }

  function RangeEnd(page: nat, n: nat, len: nat): (r: nat)
    ensures r <= len
  {
    Min((page + 1) * n, len)
  }

  /** On a page in range, the shown figures count exactly the rows on the page. */
  lemma RangeCountsPage<T>(rows: seq<T>, page: nat, n: nat)
    requires n > 0 && page < TotalPages(|rows|, n)
    ensures RangeStart(page, n) <= RangeEnd(page, n, |rows|)
    ensures RangeEnd(page, n, |rows|) - RangeStart(page, n) + 1 == |Paginated(rows, page, n)|
  {
    var t := TotalPages(|rows|, n);
    assert page * n < |rows| by {
      MulMonotone(page, t - 1, n);
    }
  }

  /** On a page in range, the first figure is the position, counted from 1, of
      the page's first row. */
  lemma RangeStartIsFirstRow<T>(rows: seq<T>, page: nat, n: nat)
    requires n > 0 && page < TotalPages(|rows|, n)
    ensures RangeStart(page, n) <= |rows|
    ensures |Paginated(rows, page, n)| > 0 && Paginated(rows, page, n)[0] == rows[RangeStart(page, n) - 1]
  {
    RangeCountsPage(rows, page, n);
  }

  /** The table's own state: the search text and the current page. */
  class Table {
    var search: string
    var page: int

    constructor()
      ensures search == "" && page == 0
    {
      search := "";
      page := 0;
    }

    /** Typing in the search box also goes back to the first page. */
    method SetSearch(text: string)
      modifies this
      ensures search == text && page == 0
    {
      search := text;
      page := 0;
    }

    method Previous()
      modifies this
      ensures page == PreviousPage(old(page)) && search == old(search)
    {
      page := if page - 1 > 0 then page - 1 else 0;
    }

    method Next(totalPages: int)
      modifies this
      ensures page == NextPage(old(page), totalPages) && search == old(search)
    {
      page := if totalPages - 1 < page + 1 then totalPages - 1 else page + 1;
    }
  }
}
