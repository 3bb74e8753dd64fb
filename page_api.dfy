/** The page-fetcher boundary of the artwork table: one request for one page
    of records, answered either with the page's rows and the reported total
    or with a transport failure. */
module PageApi {

  /** Rows per page requested by the table and by the selection walk. */
  const RowsPerPage: nat := 12

  datatype Option<+T> = None | Some(value: T)

  /** What a successful page request returns: the page's rows, in order, and
      the total record count reported by the server, or `None` when the
      response carries no pagination block. */
  datatype Response<+R> = Response(data: seq<R>, total: Option<int>)

  /** The remote data source as an oracle: `api(page, limit)` is the answer to
      the request for page `page` with `limit` rows per page, or `None` when
      the request fails. */
  type Api<R> = (int, int) -> Option<Response<R>>

  /** The rows of page `p` requested with the table's fixed page size. */
  function Fetch<R>(api: Api<R>, p: int): Option<seq<R>>
  {
    match api(p, RowsPerPage)
    case None => None
    case Some(response) => Some(response.data)
  }

  /** Page `p` arrives and holds at least a full page of rows. */
  predicate IsFull<R>(api: Api<R>, p: int)
  {
    Fetch(api, p).Some? && |Fetch(api, p).value| >= RowsPerPage
  }

  /** The rows page `p` contributes to a concatenation: none when it fails. */
  function RowsOf<R>(api: Api<R>, p: int): seq<R>
  {
    match Fetch(api, p)
    case None => []
    case Some(data) => data
  }
}
