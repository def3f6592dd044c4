# StackScript selection panel — list container

A Dafny model of the list container behind the StackScript selection panel of
the Linode Manager (`Container` in
`src/features/StackScripts/SelectStackScriptPanel/SelectStackScriptPanel.tsx`).
The container shows a paginated, sortable list of StackScripts that it fetches
page by page (50 per page) from a listing service, and it hides scripts whose
images are all deprecated, meaning none of their images is among the public
images passed in as a prop.

The model is one module, `SelectStackScriptPanel` (file
`SelectStackScriptPanel.dfy`):

- **Values.** `StackScript`, `Image`, `Filter` (the `+order_by` / `+order`
  directives), `Request`, `Response` and `Selection` are datatypes.
- **State.** `Container` is a class. Its props are `const` fields:
  `publicImages`, `isLinodeStackScripts`, the profile's username, and whether
  an `onSelect` callback was given. Its component state and the `mounted` flag
  are mutable fields.
- **Requests.** Every call of the listing service is appended to the field
  `requests`. The call records the user, the page, the page size, the filter,
  and the `isSorting` flag that the call's response handler will use.
- **Fetch events.** A fetch is split into two events. `GetDataAtPage` issues
  the request. `OnResponse` and `OnFailure` model the promise callbacks.
- **Object invariant.** `Valid()` holds for every state the container
  reaches:
  - `currentPage` is at least 1;
  - `loading` holds exactly while `data` is empty;
  - every script in `data` has a non-deprecated image;
  - `sortOrder` is the opposite of the stored filter's direction.
- **Filter.** `hasNonDeprecatedImages` is a method with the source's two
  nested loops and early return. It is proved equal to the predicate
  `NonDeprecated`. `Array.filter` with that test is the function
  `KeepNonDeprecated`, and the lemmas about the filter are stated on it.

Behaviours of the code that the model keeps as written:

- **Mount page.** Mounting requests page 0, although `currentPage` starts at
  1. So the first "show more" asks for page 2.
- **Header clicks.**
  - A header click does not reset `currentPage`.
  - The page-1 request and the stored filter carry the direction from before
    the toggle.
- **Retry.** After an empty filtered result, the retry:
  - uses the stored `isSorting`, not the flag of the request that just
    answered;
  - does not look at `showMoreButtonVisible`.

  So the model does not claim that retrying ever stops. On a tab with no
  scripts at all, every page comes back empty: "show more" is hidden after the
  first one, yet the container requests page 2, then page 3, and so on for as
  long as it is mounted (`EmptyListingKeepsRequesting`).
- **No retry after "show more".** An appending response keeps the scripts
  already shown, so once data is on screen its filtered merge is never empty.
  A "show more" page made only of deprecated scripts therefore adds nothing,
  clears the flags, and requests no further page. Only the first load and
  sorting responses reach the next-page retry.
- **End of list.** `showMoreButtonVisible` is cleared when a page comes back
  empty or its length equals the reported `results`. The code does not
  compare the length with the page size. Nothing sets the flag back to true.

## Model

| member | source | states |
|---|---|---|
| `SelectStackScriptPanel.Toggled` | src/features/StackScripts/SelectStackScriptPanel/SelectStackScriptPanel.tsx:294-296 | a header click always changes the sort direction, and changes its wire spelling (`asc`/`desc`) |
| `SelectStackScriptPanel.OrderName` | src/features/StackScripts/SelectStackScriptPanel/SelectStackScriptPanel.tsx:34 | the `+order` directive is always one of the two spellings `asc` and `desc` |
| `SelectStackScriptPanel.ToggledTwice` | src/features/StackScripts/SelectStackScriptPanel/SelectStackScriptPanel.tsx:294-296 | toggling twice gives back the original direction |
| `SelectStackScriptPanel.ColumnOrderBy` | src/features/StackScripts/SelectStackScriptPanel/SelectStackScriptPanel.tsx:294-325 | the headers send `label`, `deployments_active` and `updated`; none of them is the initial `deployments_total`, so the first header click moves away from the initial sort key |
| `SelectStackScriptPanel.ColumnOrderByInjective` | src/features/StackScripts/SelectStackScriptPanel/SelectStackScriptPanel.tsx:294-325 | the three headers send three different `+order_by` keys (`label`, `deployments_active`, `updated`) |
| `SelectStackScriptPanel.HasNonDeprecatedImages` | src/features/StackScripts/SelectStackScriptPanel/SelectStackScriptPanel.tsx:270-280 | the nested search returns true exactly when some image of the script equals the `id` of some public image; it returns false for a script with no images |
| `SelectStackScriptPanel.KeepNonDeprecated` | src/features/StackScripts/SelectStackScriptPanel/SelectStackScriptPanel.tsx:229-230 | the filter of the merged data never adds items, and it returns its input unchanged when it drops nothing |
| `SelectStackScriptPanel.KeepNonDeprecatedMembers` | src/features/StackScripts/SelectStackScriptPanel/SelectStackScriptPanel.tsx:229-230 | a script survives the filter if and only if it was in the input and has a non-deprecated image |
| `SelectStackScriptPanel.KeepNonDeprecatedSound` | src/features/StackScripts/SelectStackScriptPanel/SelectStackScriptPanel.tsx:229-230 | every script the filter returns has a non-deprecated image |
| `SelectStackScriptPanel.KeepNonDeprecatedOrdered` | src/features/StackScripts/SelectStackScriptPanel/SelectStackScriptPanel.tsx:227-230 | the filter's result is a subsequence of its input: retained scripts keep their relative order |
| `SelectStackScriptPanel.KeepNonDeprecatedCounts` | src/features/StackScripts/SelectStackScriptPanel/SelectStackScriptPanel.tsx:229-230 | the filter keeps every copy of a retained script and no copy of a dropped one, so with `KeepNonDeprecatedOrdered` it is pinned down completely |
| `SelectStackScriptPanel.KeepNonDeprecatedAppend` | src/features/StackScripts/SelectStackScriptPanel/SelectStackScriptPanel.tsx:227-230 | filtering old data followed by a new page gives the filtered old data followed by the filtered page |
| `SelectStackScriptPanel.KeepNonDeprecatedIdentity` | src/features/StackScripts/SelectStackScriptPanel/SelectStackScriptPanel.tsx:229-230 | a list whose scripts all have a non-deprecated image passes the filter unchanged |
| `SelectStackScriptPanel.KeepNonDeprecatedIdempotent` | src/features/StackScripts/SelectStackScriptPanel/SelectStackScriptPanel.tsx:229-230 | filtering twice is the same as filtering once |
| `SelectStackScriptPanel.KeepNonDeprecatedEmpty` | src/features/StackScripts/SelectStackScriptPanel/SelectStackScriptPanel.tsx:229-238 | the filtered result is empty (the retry case) exactly when every script has only deprecated images |
| `SelectStackScriptPanel.AppendToFiltered` | src/features/StackScripts/SelectStackScriptPanel/SelectStackScriptPanel.tsx:227-241 | when the stored data is already filtered, an appending response keeps the old data in place and adds the page's surviving scripts after it |
| `SelectStackScriptPanel.AppendToFilteredNonEmpty` | src/features/StackScripts/SelectStackScriptPanel/SelectStackScriptPanel.tsx:227-238 | appending a page to non-empty filtered data never gives an empty result, so an appending response on shown data never reaches the next-page retry |
| `SelectStackScriptPanel.DeprecatedExample` | src/features/StackScripts/SelectStackScriptPanel/SelectStackScriptPanel.tsx:229-230 | with public images A and B, the page [script with X, script with A] filters to [script with A] |
| `SelectStackScriptPanel.SortIconOn` | src/features/StackScripts/SelectStackScriptPanel/SelectStackScriptPanel.tsx:372-414 | the header conditions put the icon on exactly one header: the last clicked one, or the active-deploys header before any click |
| `SelectStackScriptPanel.Container.constructor` | src/features/StackScripts/SelectStackScriptPanel/SelectStackScriptPanel.tsx:196-208 | the initial state: page 1, loading, no data, show-more visible, ascending, no filter type, the `deployments_total`/`desc` filter, not sorting, not mounted, no request sent |
| `SelectStackScriptPanel.Container.FilteredUser` | src/features/StackScripts/SelectStackScriptPanel/SelectStackScriptPanel.tsx:213-216 | the Linode tab asks for user `linode`, any other tab for the profile's username; the result is `linode` exactly on the Linode tab or for a profile named `linode` |
| `SelectStackScriptPanel.Container.ShowMoreShown` | src/features/StackScripts/SelectStackScriptPanel/SelectStackScriptPanel.tsx:341-447 | the show-more button is rendered only when the spinner is gone, the end of the list was not seen and no sort is pending; together with `Valid()` it then sits beside a non-empty list |
| `SelectStackScriptPanel.Container.SortIconPointsUp` | src/features/StackScripts/SelectStackScriptPanel/SelectStackScriptPanel.tsx:327-335 | the sort icon is the upward arrow exactly when the stored order is `desc`; in every reachable state that is exactly when the stored filter, the sort last asked of the server, is ascending |
| `SelectStackScriptPanel.Container.GetDataAtPage` | src/features/StackScripts/SelectStackScriptPanel/SelectStackScriptPanel.tsx:210-221 | raises the in-flight flag, stores `isSorting`, and sends exactly one request for the given page and filter with page size 50, for user `linode` on the Linode tab and the profile's username otherwise |
| `SelectStackScriptPanel.Container.ComponentDidMount` | src/features/StackScripts/SelectStackScriptPanel/SelectStackScriptPanel.tsx:253-256 | requests page 0 with the stored filter as a non-sorting request, then the container is mounted |
| `SelectStackScriptPanel.Container.ComponentWillUnmount` | src/features/StackScripts/SelectStackScriptPanel/SelectStackScriptPanel.tsx:258-260 | the container is no longer mounted and nothing else changes |
| `SelectStackScriptPanel.Container.GetNext` | src/features/StackScripts/SelectStackScriptPanel/SelectStackScriptPanel.tsx:262-268 | when not mounted nothing changes; otherwise `currentPage` grows by exactly 1 and that page is requested with the stored filter and the stored `isSorting` |
| `SelectStackScriptPanel.Container.OnResponse` | src/features/StackScripts/SelectStackScriptPanel/SelectStackScriptPanel.tsx:222-246 | the handler runs only for a request that was sent. When not mounted nothing changes. Otherwise: show-more is cleared on an empty page or when the length equals `results`, and is never set back. If the filtered merge (the page alone when sorting, old data then page otherwise) is empty: `data`, `loading` and `isSorting` are unchanged, `currentPage` grows by 1, and one request for that page goes out. An appending response on non-empty data never takes that path: no request goes out and `currentPage` stays. Else `data` is the filtered merge (for an appending response, the old data followed by the page's survivors), and the in-flight, loading and sorting flags are all false. Every script in `data` keeps a non-deprecated image |
| `SelectStackScriptPanel.Container.OnFailure` | src/features/StackScripts/SelectStackScriptPanel/SelectStackScriptPanel.tsx:247-250 | when not mounted nothing changes; otherwise only the in-flight flag is cleared (`data`, `currentPage` and show-more are framed out) |
| `SelectStackScriptPanel.Container.HandleSelectStackScript` | src/features/StackScripts/SelectStackScriptPanel/SelectStackScriptPanel.tsx:282-292 | without `onSelect` nothing happens; otherwise the callback gets the script's id, label, username, images and fields, and the script's id becomes `selected` |
| `SelectStackScriptPanel.Container.HandleClickTableHeader` | src/features/StackScripts/SelectStackScriptPanel/SelectStackScriptPanel.tsx:294-325 | the three header handlers (one method, parameterised by the column). Each flips `sortOrder`, sends one page-1 sorting request whose filter orders by the column in the pre-toggle direction, and stores that filter in `currentFilter`. It sets `currentFilterType` to the column, hides show-more, puts the icon on that header, and makes the arrow point up exactly when the request just sent was ascending. `currentPage` and `data` are left alone |
| `SelectStackScriptPanel.Container.ClickShowMore` | src/features/StackScripts/SelectStackScriptPanel/SelectStackScriptPanel.tsx:434-447 | the button is rendered only when `ShowMoreShown()` holds (not while loading, not after the end of the list, not while sorting), and it is disabled while a request is in flight. In those cases a click changes nothing; otherwise data is on screen and the click behaves as `getNext` with a non-sorting request |
| `SelectStackScriptPanel.Container.ClickTableHeader` | src/features/StackScripts/SelectStackScriptPanel/SelectStackScriptPanel.tsx:341-414 | a header can only be clicked once the table replaces the spinner: while `loading` nothing changes, otherwise the click behaves as the header handler |
| `SelectStackScriptPanel.HeaderClickedTwice` | src/features/StackScripts/SelectStackScriptPanel/SelectStackScriptPanel.tsx:294-325 | two clicks on a header restore `sortOrder` and append two replacing (sorting) page-1 requests to the unchanged earlier log, both ordered by that column's key, in opposite directions; the column and the last sent filter are stored, the request flags are raised, and `data`, `currentPage`, show-more, `loading`, `selected` and `mounted` are framed out |
| `SelectStackScriptPanel.EmptyListingKeepsRequesting` | src/features/StackScripts/SelectStackScriptPanel/SelectStackScriptPanel.tsx:222-238 | on a tab with no scripts the first empty page hides "show more", yet the container goes on to request page 2 and then page 3: the retry never stops while mounted |

## Left out

- Rendering is not modelled: the JSX, the table cells, the icon components, the tab list of `SelectStackScriptPanel`, the `styles` callback and class-name composition. The conditions that decide what is rendered are kept: `loading` for the spinner, `ShowMoreShown` (spinner gone, end of list not seen, no sort pending), `SortIconOn` and `SortIconPointsUp`. `ClickShowMore` and `ClickTableHeader` are clicks on the rendered controls; the handler methods themselves stay callable in any state, as the handler functions are.
- `packages/manager/src/features/ObjectStorage/BucketDetail/BucketDetail.styles.ts` is purely declarative style bindings and is not part of this model.
- The listing services (`getStackScriptsByUser`, `getCommunityStackscripts`) are foreign calls. A call is recorded as a `Request`. Its outcome is whatever `Response` or failure the caller of `OnResponse` or `OnFailure` supplies.
- Redux wiring (`connect`, `mapStateToProps` with `pathOr`), `RenderGuard` and `StackScriptsSection` are not part of this model. The profile's username is a constructor argument.
- Promise timing is not modelled. Each completion is one sequential event, and nothing ties a response to a still-outstanding request, so stale responses may arrive in any order, as in the code. React's batching of `setState` is not modelled: each handler's updates take effect in program order.
- Props are fixed at construction; a change of `publicImages` after mount is not modelled.
- `UserDefinedField` carries only a name. The panel passes these fields on and never inspects them.
- The failure value passed to the `.catch` handler is not modelled; the handler ignores it.
