/** The story history page (src/pages/History.tsx): five stories per page,
    the inclusive row range each page asks for, the page count, the
    bounds-checked page change and the pagination controls. The two queries
    (count and rows) are inputs. */
module History {
  import opened Wrappers

  const ItemsPerPage: int := 5

  /** First row (0-based, inclusive) requested for a page. */
  function RangeFrom(page: int): int {
    (page - 1) * ItemsPerPage
  }

  /** Last row (inclusive) requested for a page. */
  function RangeTo(page: int): int {
    RangeFrom(page) + ItemsPerPage - 1
  }

  /** `Math.ceil(total / ITEMS_PER_PAGE)`: the fewest pages of five that hold
      all the stories. */
  function TotalPages(total: nat): (r: nat)
    ensures r * ItemsPerPage >= total
    ensures r == 0 || (r - 1) * ItemsPerPage < total
    ensures r == 0 <==> total == 0
  {
    (total + ItemsPerPage - 1) / ItemsPerPage
  }

  /** The guard of `handlePageChange`. */
  predicate ValidPage(page: int, total: nat) {
    1 <= page <= TotalPages(total)
  }

  /** `totalStories > ITEMS_PER_PAGE` */
  predicate ShowPagination(total: nat) {
    total > ItemsPerPage
  }

  /** Each page asks for exactly five rows, and the next page starts right
      after it. */
  lemma PageRangesTile(page: int)
    ensures RangeTo(page) - RangeFrom(page) + 1 == ItemsPerPage
    ensures RangeFrom(page + 1) == RangeTo(page) + 1
  {
  }

  /** Every row of the history is asked for by exactly one page, and that page
      is one the page change accepts. */
  lemma RowOnExactlyOnePage(row: nat, total: nat)
    requires row < total
    ensures var p := row / ItemsPerPage + 1;
            ValidPage(p, total) && RangeFrom(p) <= row <= RangeTo(p)
    ensures forall q :: RangeFrom(q) <= row <= RangeTo(q) ==> q == row / ItemsPerPage + 1
  {
    var p := row / ItemsPerPage + 1;
    assert RangeFrom(p) == row - row % ItemsPerPage;
    forall q | RangeFrom(q) <= row <= RangeTo(q)
      ensures q == p
    {
    }
  }

  /** Every page the page change accepts asks for at least one existing row. */
  lemma ValidPageNotEmpty(page: int, total: nat)
    requires ValidPage(page, total)
    ensures 0 <= RangeFrom(page) < total
  {
  }

  /** The controls only appear when there are at least two pages. */
  lemma PaginationMeansSeveralPages(total: nat)
    requires ShowPagination(total)
    ensures TotalPages(total) >= 2
  {
  }

  /** The outcome of the count query: an error, or a count that may be null. */
  datatype CountResult = CountFailed | CountReturned(count: Option<nat>)

  /** The outcome of the rows query: an error, or rows that may be null. */
  datatype RowsResult<T> = RowsFailed | RowsReturned(data: Option<seq<T>>)

  /** The page's state; `T` is a stored story. */
  class HistoryPage<T> {
    var userStories: seq<T>
    var isLoading: bool
    var currentPage: int
    var totalStories: nat

    /** The page never holds a page number below one. */
    ghost predicate Valid()
      reads this
    {
      currentPage >= 1
    }

    constructor ()
      ensures Valid()
      ensures userStories == [] && isLoading && currentPage == 1 && totalStories == 0
    {
      userStories := [];
      isLoading := true;
      currentPage := 1;
      totalStories := 0;
    }

    /** The fetch effect. Without a session nothing is queried. Otherwise the
        count is stored unless its query failed (a null count is 0), the
        current page's range is requested, and the rows are stored unless
        their query failed (null rows are none). `requested` is the range
        passed to the rows query. */
    method FetchUserStories(hasSession: bool, countResult: CountResult, rowsResult: RowsResult<T>)
      returns (requested: Option<(int, int)>)
      requires Valid()
      modifies this`isLoading, this`totalStories, this`userStories
      ensures Valid()
      ensures !isLoading
      ensures !hasSession ==> requested.None? && totalStories == old(totalStories)
                              && userStories == old(userStories)
      ensures hasSession ==> requested == Some((RangeFrom(currentPage), RangeTo(currentPage)))
      ensures hasSession && countResult.CountReturned? ==> totalStories == countResult.count.GetOr(0)
      ensures hasSession && countResult.CountFailed? ==> totalStories == old(totalStories)
      ensures hasSession && rowsResult.RowsReturned? ==> userStories == rowsResult.data.GetOr([])
      ensures hasSession && rowsResult.RowsFailed? ==> userStories == old(userStories)
      ensures hasSession ==> requested.value.0 >= 0
    {
      isLoading := true;
      requested := None;
      if hasSession {
        match countResult {
          case CountFailed =>
          case CountReturned(count) =>
            totalStories := count.GetOr(0);
        }
        var from := (currentPage - 1) * ItemsPerPage;
        var to := from + ItemsPerPage - 1;
        requested := Some((from, to));
        match rowsResult {
          case RowsFailed =>
          case RowsReturned(data) =>
            userStories := data.GetOr([]);
        }
      }
      isLoading := false;
    }

    /** `handlePageChange`: only a page between 1 and the page count is taken. */
    method HandlePageChange(page: int)
      requires Valid()
      modifies this`currentPage
      ensures Valid()
      ensures ValidPage(page, totalStories) ==> currentPage == page
      ensures !ValidPage(page, totalStories) ==> currentPage == old(currentPage)
    {
      var totalPages := (totalStories + ItemsPerPage - 1) / ItemsPerPage;
      if page >= 1 && page <= totalPages {
        currentPage := page;
      }
    }

    /** The previous control goes back one page when that page exists; on the
        first page, or when a smaller count has left the current page beyond
        the last, it does nothing. The next control on or past the last page
        does nothing. */
    method ClickPrevious()
      requires Valid()
      modifies this`currentPage
      ensures Valid()
      ensures old(currentPage) == 1 ==> currentPage == 1
      ensures old(currentPage) > 1 && old(currentPage) - 1 <= TotalPages(totalStories) ==>
                currentPage == old(currentPage) - 1
      ensures old(currentPage) - 1 > TotalPages(totalStories) ==> currentPage == old(currentPage)
    {
      HandlePageChange(currentPage - 1);
    }

    method ClickNext()
      requires Valid()
      modifies this`currentPage
      ensures Valid()
      ensures old(currentPage) >= TotalPages(totalStories) ==> currentPage == old(currentPage)
      ensures old(currentPage) < TotalPages(totalStories) ==> currentPage == old(currentPage) + 1
    {
      HandlePageChange(currentPage + 1);
    }
  }
}
