/** The paging and display arithmetic that both table components compute on every render
    (the two components carry identical copies of it). Pages are 1-based and hold
    `RecordsPerPage` records. */
module Pager {
  import opened Wrappers

  const RecordsPerPage: nat := 10

  /** `indexOfLastRecord = currentPage * recordsPerPage` */
  function IndexOfLastRecord(page: int): int
  {
    page * RecordsPerPage
  }

  /** `indexOfFirstRecord = indexOfLastRecord - recordsPerPage` */
  function IndexOfFirstRecord(page: int): (i: int)
    ensures i == (page - 1) * RecordsPerPage
    ensures i + RecordsPerPage == IndexOfLastRecord(page)
  {
    IndexOfLastRecord(page) - RecordsPerPage
  }

  function Min(a: int, b: int): int { if a < b then a else b }
  function Max(a: int, b: int): int { if a < b then b else a }

  /** How `Array.prototype.slice` reads one bound: a negative bound counts from the end,
      and the result is clamped to `[0, len]`. */
  function SliceBound(i: int, len: nat): (k: nat)
    ensures k <= len
    ensures 0 <= i <= len ==> k == i
    ensures i > len ==> k == len
    ensures i < 0 ==> k == (if len + i < 0 then 0 else len + i)
  {
    if i < 0 then (if len + i < 0 then 0 else len + i)
    else if i > len then len
    else i
  }

  /** `s.slice(start, end)`. */
  function Slice<T>(s: seq<T>, start: int, end: int): (r: seq<T>)
    ensures var from, to := SliceBound(start, |s|), SliceBound(end, |s|);
            |r| == Max(0, to - from) && forall i :: 0 <= i < |r| ==> r[i] == s[from + i]
  {
    var from, to := SliceBound(start, |s|), SliceBound(end, |s|);
    if from < to then s[from..to] else []
  }

  /** `currentRecords`: the rows shown on page `page`. On a page p >= 1 they are
      `filtered[(p-1)*10 .. min(p*10, n)]`, and there are `min(10, max(0, n - (p-1)*10))`
      of them. */
  function CurrentRecords<T>(filtered: seq<T>, page: int): (rows: seq<T>)
    ensures |rows| <= |filtered|
    ensures page >= 1 ==>
              var first := (page - 1) * RecordsPerPage;
              |rows| == Min(RecordsPerPage, Max(0, |filtered| - first)) &&
              (forall i :: 0 <= i < |rows| ==> rows[i] == filtered[first + i])
  {
    Slice(filtered, IndexOfFirstRecord(page), IndexOfLastRecord(page))
  }

  /** `Math.ceil(n / recordsPerPage)`, in integers. */
  function TotalPages(n: nat): (t: nat)
    ensures t == 0 <==> n == 0
    ensures n > 0 ==> (t - 1) * RecordsPerPage < n <= t * RecordsPerPage
  {
    (n + RecordsPerPage - 1) / RecordsPerPage
  }

  /** For p >= 1, page p has rows exactly when it is one of the first `TotalPages` pages. */
  lemma PageNonEmptyIff<T>(filtered: seq<T>, page: int)
    requires page >= 1
    ensures |CurrentRecords(filtered, page)| > 0 <==> page <= TotalPages(|filtered|)
  {
    var n, t := |filtered|, TotalPages(|filtered|);
    if n > 0 {
      if page <= t {
        assert (page - 1) * RecordsPerPage <= (t - 1) * RecordsPerPage;
      } else {
        assert (page - 1) * RecordsPerPage >= t * RecordsPerPage;
      }
    }
  }

  /** Pages 1..k laid end to end. */
  function PagesUpTo<T>(filtered: seq<T>, k: nat): seq<T>
  {
    if k == 0 then [] else PagesUpTo(filtered, k - 1) + CurrentRecords(filtered, k)
  }

  lemma {:induction false} PagesUpToIsPrefix<T>(filtered: seq<T>, k: nat)
    ensures PagesUpTo(filtered, k) == filtered[..Min(k * RecordsPerPage, |filtered|)]
  {
    if k > 0 {
      PagesUpToIsPrefix(filtered, k - 1);
      var a := Min((k - 1) * RecordsPerPage, |filtered|);
      var b := Min(k * RecordsPerPage, |filtered|);
      assert filtered[..b] == filtered[..a] + CurrentRecords(filtered, k);
    }
  }

  /** Reading pages 1..TotalPages in order shows every filtered record exactly once, in order. */
  lemma PagesCoverFiltered<T>(filtered: seq<T>)
    ensures PagesUpTo(filtered, TotalPages(|filtered|)) == filtered
  {
    PagesUpToIsPrefix(filtered, TotalPages(|filtered|));
  }

  /** The Previous button: `Math.max(prev - 1, 1)`. */
  function PreviousPage(page: int): (p: int)
    ensures p >= 1
    ensures page > 1 ==> p == page - 1
    ensures page <= 1 ==> p == 1
  {
    Max(page - 1, 1)
  }

  /** The Next button: `Math.min(prev + 1, totalPages)`. */
  function NextPage(page: int, totalPages: int): (p: int)
    ensures p <= totalPages
    ensures page < totalPages ==> p == page + 1
    ensures page >= totalPages ==> p == totalPages
  {
    Min(page + 1, totalPages)
  }

  /** `disabled={currentPage === 1}`: exactly when a click would not move the page. */
  predicate PreviousDisabled(page: int)
    ensures PreviousDisabled(page) <==> PreviousPage(page) == page
  {
    page == 1
  }

  /** `disabled={currentPage === totalPages}`: exactly when a click would not move the page. */
  predicate NextDisabled(page: int, totalPages: int)
    ensures NextDisabled(page, totalPages) <==> NextPage(page, totalPages) == page
  {
    page == totalPages
  }

  /** Starting inside [1, totalPages], both buttons keep the page inside it; a disabled
      button is exactly one whose click would leave the page where it is. */
  lemma PagingStaysInRange(page: int, totalPages: int)
    requires 1 <= page <= totalPages
    ensures 1 <= PreviousPage(page) <= totalPages
    ensures 1 <= NextPage(page, totalPages) <= totalPages
    ensures PreviousDisabled(page) <==> PreviousPage(page) == page
    ensures NextDisabled(page, totalPages) <==> NextPage(page, totalPages) == page
  {
  }

  /** "Showing X to Y of Z results". */
  datatype Summary = Summary(first: int, last: int, total: nat)

  /** X is one past the records of the earlier pages, Y the last record of this page or the
      last record overall, Z the number of results. */
  function ShowingSummary(page: int, n: nat): (s: Summary)
    ensures s.first == (page - 1) * RecordsPerPage + 1
    ensures s.last == Min(page * RecordsPerPage, n)
    ensures s.total == n
  {
    var last := IndexOfLastRecord(page);
    Summary(IndexOfFirstRecord(page) + 1, if last > n then n else last, n)
  }

  /** On a page that the pager can reach, 1 <= X <= Y <= Z and the label counts exactly
      the rows on the page. */
  lemma SummaryMatchesRows<T>(filtered: seq<T>, page: int)
    requires |filtered| > 0 && 1 <= page <= TotalPages(|filtered|)
    ensures var s := ShowingSummary(page, |filtered|);
            1 <= s.first <= s.last <= s.total == |filtered| &&
            s.last - s.first + 1 == |CurrentRecords(filtered, page)|
  {
    PageNonEmptyIff(filtered, page);
  }

  /** 12 matching records: page 1 shows 1-10 of 12, page 2 shows 11-12 of 12 and
      disables Next. */
  lemma TwelveResultsExample<T>(filtered: seq<T>)
    requires |filtered| == 12
    ensures TotalPages(12) == 2
    ensures ShowingSummary(1, 12) == Summary(1, 10, 12)
    ensures ShowingSummary(2, 12) == Summary(11, 12, 12)
    ensures CurrentRecords(filtered, 2) == filtered[10..]
    ensures NextDisabled(2, TotalPages(12)) && !NextDisabled(1, TotalPages(12))
  {
  }

  /** The message both tables store when their fetch fails. */
  const LoadError: string := "Failed to load data. Please try again later."

  /** Which of the four blocks a table renders. */
  datatype Display = Display(spinner: bool, errorMessage: bool, noData: bool, table: bool)

  /** A JavaScript string used as a condition: `null` and `""` are falsy. */
  predicate Truthy(s: Option<string>) { s.Some? && s.value != "" }

  /** `{isLoading && <LoadingSpinner/>}`, `{error && ...}`, and the two
      `!isLoading && !error && filteredData.length ...` blocks. */
  function Decide(isLoading: bool, error: Option<string>, filteredCount: nat): (d: Display)
    ensures d.spinner <==> isLoading
    ensures d.errorMessage <==> Truthy(error)
    ensures d.noData <==> !isLoading && !Truthy(error) && filteredCount == 0
    ensures d.table <==> !isLoading && !Truthy(error) && filteredCount > 0
  {
    var quiet := !isLoading && !Truthy(error);
    Display(isLoading, Truthy(error), quiet && filteredCount == 0, quiet && filteredCount > 0)
  }

  /** Unless a load is in progress while an error is set, exactly one block shows. */
  lemma ExactlyOneBlock(isLoading: bool, error: Option<string>, filteredCount: nat)
    requires !(isLoading && Truthy(error))
    ensures var d := Decide(isLoading, error, filteredCount);
            (if d.spinner then 1 else 0) + (if d.errorMessage then 1 else 0) +
            (if d.noData then 1 else 0) + (if d.table then 1 else 0) == 1
  {
  }
}
