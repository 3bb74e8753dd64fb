/** The artwork table component: the pagination state it displays and the
    handler that selects the first `n` rows across pages. */
module TableComponent {
  import opened PageApi
  import opened SelectionSpec

  /** The 1-based page shown for the grid's 0-based page index. */
  function PageFromGrid(gridIndex: nat): (page: int)
    ensures page >= 1
    ensures GridOffset(page) == gridIndex * RowsPerPage
  {
    gridIndex + 1
  }

  /** Index of the first row of `page` among all rows: the grid's offset. */
  function GridOffset(page: int): (first: int)
    requires page >= 1
    ensures first >= 0 && first % RowsPerPage == 0
    ensures first < page * RowsPerPage <= first + RowsPerPage
  {
    (page - 1) * RowsPerPage
  }

  class Table<R> {
    /** The displayed page, counted from 1. */
    var page: int
    /** The rows of the displayed page. */
    var artistData: seq<R>
    /** The total record count last reported by the server. */
    var totalRecords: int
    /** The selected rows. */
    var selected: seq<R>

    ghost predicate Valid()
      reads this
    {
      page >= 1
    }

    /** The state before the first page has been loaded. */
    constructor ()
      ensures Valid()
      ensures page == 1 && artistData == [] && totalRecords == 0 && selected == []
    {
      page := 1;
      artistData := [];
      totalRecords := 0;
      selected := [];
    }

    /** Loads page `pageNumber` with `row` rows per page. A successful request
        replaces the shown rows, and the total when the response reports one
        (a response without one makes reading the total throw, which is
        caught after the rows were already replaced); a failed request
        changes nothing. */
    method FetchData(pageNumber: int, row: int, api: Api<R>)
      requires Valid()
      modifies this`artistData, this`totalRecords
      ensures Valid() && GridOffset(page) == old(GridOffset(page))
      ensures api(pageNumber, row).Some? ==> artistData == api(pageNumber, row).value.data
      ensures api(pageNumber, row).Some? && api(pageNumber, row).value.total.Some? ==>
        totalRecords == api(pageNumber, row).value.total.value
      ensures api(pageNumber, row).None? ==> artistData == old(artistData)
      ensures api(pageNumber, row).None? || api(pageNumber, row).value.total.None? ==>
        totalRecords == old(totalRecords)
    {
      var response := api(pageNumber, row);
      match response
      case Some(r) =>
        artistData := r.data;
        if r.total.Some? {
          totalRecords := r.total.value;
        }
      case None =>
    }

    /** The grid moved to its 0-based page `gridIndex`, showing `gridRows`
        rows per page: the displayed page becomes `gridIndex + 1` whatever
        the request's outcome, and that page is loaded. */
    method OnPageChange(gridIndex: nat, gridRows: int, api: Api<R>)
      requires Valid()
      modifies this`page, this`artistData, this`totalRecords
      ensures Valid()
      ensures page == gridIndex + 1 && GridOffset(page) == gridIndex * RowsPerPage
      ensures api(page, gridRows).Some? ==> artistData == api(page, gridRows).value.data
      ensures api(page, gridRows).Some? && api(page, gridRows).value.total.Some? ==>
        totalRecords == api(page, gridRows).value.total.value
      ensures api(page, gridRows).None? ==> artistData == old(artistData)
      ensures api(page, gridRows).None? || api(page, gridRows).value.total.None? ==>
        totalRecords == old(totalRecords)
    {
      page := PageFromGrid(gridIndex);
      FetchData(page, gridRows, api);
    }

    /** Selects the first `n` rows, starting with the displayed page and
        requesting the following pages one by one. Returns the page indices
        requested, in order. The new selection replaces the old one; the
        pagination state is left as it was. */
    method HandleSelectRows(n: nat, api: Api<R>) returns (requested: seq<int>)
      requires Valid()
      modifies this`selected
      ensures Valid()
      ensures Walk(selected, requested) == Select(artistData, page, api, n)
      ensures n == 0 ==> selected == [] && requested == []
      ensures n <= |artistData| ==> selected == artistData[..n] && requested == []
    {
      var shown := artistData;
      ghost var goal := Select(shown, page, api, n);
      var remaining: int := n;
      var rows: seq<R> := [];
      var currentPage := page;
      requested := [];

      rows := rows + shown[..Min(remaining, |shown|)];
      remaining := remaining - |rows|;
      assert rows == Prefix(shown, n);

      while remaining > 0
        invariant currentPage == page + |requested|
        invariant remaining > 0 ==>
          rows + WalkFrom(api, currentPage + 1, remaining).rows == goal.rows &&
          requested + WalkFrom(api, currentPage + 1, remaining).requested == goal.requested
        invariant remaining <= 0 ==> rows == goal.rows && requested == goal.requested
        decreases remaining
      {
        ghost var need: nat := remaining;
        ghost var earlier := requested;
        currentPage := currentPage + 1;
        requested := requested + [currentPage];
        var response := api(currentPage, RowsPerPage);
        if response.None? {
          WalkLoopFails(api, currentPage, need, rows, earlier, goal);
          break;
        }
        var data := response.value.data;
        assert Fetch(api, currentPage) == Some(data);
        ghost var before := rows;
        rows := rows + data[..Min(remaining, |data|)];
        // The whole page is subtracted, not the rows taken from it; the two
        // differ only on the page that ends the walk.
        remaining := remaining - |data|;
        if |data| < RowsPerPage || remaining <= 0 {
          WalkLoopEnds(api, currentPage, need, data, before, earlier, goal);
        } else {
          assert rows == before + data;
          WalkLoopContinues(api, currentPage, need, data, before, earlier, goal);
        }
        if |data| < RowsPerPage {
          break;
        }
      }
      selected := rows;
    }
  }
}
