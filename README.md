# Cross-page row selection of the artwork table

This project models the core of `TableComponent`, a paginated table of
artwork records fed by a remote API. Two pieces are modelled:

- The **pagination state** of the table: the displayed page (counted from 1),
  the rows of that page, the total record count reported by the server, and
  the current selection. A successful page request replaces the rows, and
  the total when the response reports one; a failed request changes
  neither. Moving the grid to its 0-based
  page `i` shows page `i + 1`, and the grid's row offset is
  `(page - 1) * 12`.
- The **"select the first N rows" handler**. It takes the leading rows of the
  displayed page. Then it requests the following pages one at a time,
  taking from each only as many leading rows as are still wanted. It stops
  when nothing more is wanted, when a page comes back shorter than 12 rows,
  or when a request fails. The rows gathered replace the previous selection.

The remote API is an oracle `api(page, limit)`. It returns either the page's
rows with the reported total (itself optional, for a response without a
pagination block), or `None` for a transport failure (`PageApi.Api`). Records are a type parameter `R`: the handler never looks
inside them.

Layout:

- `page_api.dfy` (module `PageApi`): the page size 12, the response type,
  the oracle type, and `Fetch`, the rows of page `p` requested with limit 12.
- `selection_spec.dfy` (module `SelectionSpec`): the selection as pure
  functions. `WalkFrom` is the walk over pages `p, p + 1, ...` for `need`
  more rows. `Select` is the whole selection. Both return the rows and the
  page indices requested. `Stream` is an independent reference definition:
  the rows of the data set from a page on, cut after the first short page and
  before the first failed one. The lemmas relate these.
- `table_component.dfy` (module `TableComponent`): the class `Table` with
  the component's state, and the handlers `FetchData`, `OnPageChange` and
  `HandleSelectRows`. `HandleSelectRows` keeps the `while` loop, `break`s
  and counters of `handleSelectRows`. It returns the page indices it requested, which are
  the observable network requests. Its postcondition equates the selection
  and those indices with `Select`.

`handleSelectRows` subtracts a page's full length from the remaining count, not the
number of rows taken from it. Its `remaining` can therefore go below zero.
The loop invariant of `HandleSelectRows` shows this gives the same result as
`WalkFrom`, which subtracts only the rows taken. The two differ only on the
page that ends the walk.

Behaviours of the component worth knowing, which the model keeps:

- `onPageChange` sets the displayed page before its request completes. A
  failed request therefore leaves the new page number with the old page's
  rows.
- `fetchData` stores the rows before it reads the total. A response without
  a pagination block therefore replaces the rows and keeps the old total.
- The selection walk always requests pages with limit 12, even when the
  displayed page was loaded with another rows-per-page value chosen in the
  grid (`event.rows`).
- Pages longer than 12 rows are not excluded. The walk then treats them as
  full pages, as the code does.

## Model

| member | source | states |
|---|---|---|
| `SelectionSpec.Prefix` | src/components/TableComponent.tsx:63-65 | the rows taken from a page are a prefix of it, at most `n` long, and either exactly `n` rows or the whole page |
| `SelectionSpec.WalkFrom` | src/components/TableComponent.tsx:68-92 | the walk collects at most `need` rows; it requests consecutive pages starting at `p`; it makes a request exactly when `need > 0` |
| `SelectionSpec.RequestsOnlyWhileWanted` | src/components/TableComponent.tsx:68-81 | a page is requested only while rows are still wanted: the pages requested before it hold fewer than `need` rows together |
| `SelectionSpec.Select` | src/components/TableComponent.tsx:58-96 | the selection has at most `n` rows; it extends the displayed page or is a prefix of it; when `n` is at most the displayed page's length it is exactly the first `n` displayed rows, with no request; requested pages are `page + 1, page + 2, ...` in order |
| `SelectionSpec.WalkIsStreamPrefix` | src/components/TableComponent.tsx:68-92 | the walk's rows are exactly the first `need` rows of the page stream from `p`, cut at the first short or failed page; nothing is skipped or reordered |
| `SelectionSpec.SelectIsStreamPrefix` | src/components/TableComponent.tsx:58-94 | the selection is exactly the first `n` rows of the displayed rows followed by the page stream from `page + 1` |
| `SelectionSpec.EarlierRequestsWereFull` | src/components/TableComponent.tsx:83-88 | every requested page except the last came back with a full page, so no request follows a short page or a failed request |
| `SelectionSpec.StopsAtFirstPartialPage` | src/components/TableComponent.tsx:78-88 | if pages `p .. p+k-1` are full, page `p+k` is short or fails, and those full pages do not satisfy `need`, the walk requests exactly `k + 1` pages; its rows are the full pages plus the leading rows of page `p+k` |
| `SelectionSpec.FailedRequestKeepsEarlierRows` | src/components/TableComponent.tsx:86-94 | a failed request ends the selection; it holds exactly the rows collected before it; no later page is requested |
| `SelectionSpec.ShortPageEndsSelection` | src/components/TableComponent.tsx:78-85 | a short page contributes its leading rows, up to the count still wanted, and is the last page requested |
| `SelectionSpec.FullPagesRequestCount` | src/components/TableComponent.tsx:68-85 | with `ceil(need / 12)` pages of 12 rows ahead, the walk collects all `need` rows in exactly that many requests |
| `SelectionSpec.AllFullPagesSelection` | src/components/TableComponent.tsx:63-92 | selecting more rows than are displayed, with `ceil((n - displayed) / 12)` pages of 12 rows ahead, yields exactly `n` rows after exactly that many requests |
| `SelectionSpec.SelectFifteen` | src/components/TableComponent.tsx:63-85 | 12 displayed rows and a full next page: selecting 15 takes all 12 displayed rows and the next page's first 3, with one request |
| `SelectionSpec.SelectThirtyShortNextPage` | src/components/TableComponent.tsx:78-85 | 12 displayed rows and a 5-row next page: selecting 30 yields those 17 rows with one request |
| `TableComponent.PageFromGrid` | src/components/TableComponent.tsx:53-54 | the displayed page for a 0-based grid page `i` is at least 1, and its grid offset is `i * 12` |
| `TableComponent.GridOffset` | src/components/TableComponent.tsx:160 | the grid offset of a page `>= 1` is a non-negative multiple of 12, and the page's rows lie within the 12 rows from it |
| `TableComponent.Table.constructor` | src/components/TableComponent.tsx:20-24 | initial state: page 1, no rows, total 0, empty selection |
| `TableComponent.Table.FetchData` | src/components/TableComponent.tsx:30-47 | a successful request replaces the displayed rows, and the total when the response reports one (otherwise the old total stays); a failed one leaves both unchanged; the page, its grid offset and the selection are untouched |
| `TableComponent.Table.OnPageChange` | src/components/TableComponent.tsx:53-56 | the page becomes `i + 1`, with grid offset `i * 12`, whatever the outcome; then page `i + 1` is loaded with the grid's rows per page, with the same outcomes as `FetchData` |
| `TableComponent.Table.HandleSelectRows` | src/components/TableComponent.tsx:58-96 | only the selection changes; the new selection and the requested page indices are exactly `Select` of the displayed rows and page; selecting 0 rows, or no more rows than are displayed, makes no request |

## Left out

- The HTTP requests and URL construction (lines 33-35, 72-74) are the oracle `api(page, limit)`. It is a fixed function, so the data set is assumed not to change during a walk.
- The React effect that reloads the page whenever `page` changes (lines 49-51) is not modelled. This includes the initial load on mount, and the second request it adds after the one `onPageChange` makes.
- OnPageChange: models only the handler's own request, with the grid's `event.rows` as limit. The effect then requests the same page again with limit 12. The table ends up showing whichever response arrives last, which depends on network timing. When the grid's rows per page is not 12 (5, 25 and 50 are offered at line 159), the page can end up shown with 12 rows rather than `event.rows`.
- Asynchronous interleaving is not modelled. A page change during a running selection walk, or two walks at once, is outside the model. Each handler runs to completion.
- The `loading` flag (lines 22, 31, 45, 70, 90) and the spinner it shows are not modelled. They are display only.
- The error logging (lines 43, 87) is not modelled. It is a diagnostic side effect.
- The overlay panel, its `hide` call (line 95) and the JSX rendering (lines 99-195) are not modelled, apart from the offset at line 160.
- The grid's own checkbox selection (line 163) is not modelled. It is a UI callback that stores whatever rows the grid reports.
- The `rowsToSelect` state and `Number(...)` parsing of the input (lines 25, 139) are not modelled. The count is the parameter `n: nat`. Negative or fractional input, and JavaScript's `slice` behaviour on them, are outside the model.
- Two malformed successful responses are outside the oracle. In one, `data` is missing or not an array; the oracle always gives a row sequence. In the other, the `pagination` block has no `total`; line 41 then sets the total to `undefined`, whereas the oracle either gives a number or keeps the old total.
- The fields of a record (lines 9-17) are not modelled. Records are the type parameter `R`.
