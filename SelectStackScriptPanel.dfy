/**
 * The StackScript selection list: a paginated, sortable list of deployment
 * scripts fetched page by page from a remote listing service, with scripts
 * whose images are all deprecated filtered out on the client.
 *
 * The asynchronous fetch is split in two events: issuing a request (recorded
 * in the container's `requests` log) and the arrival of its response or its
 * failure (`OnResponse`, `OnFailure`).
 */
module SelectStackScriptPanel {

  datatype Option<T> = None | Some(value: T)

  /** The direction of a sort, sent to the server as the `+order` directive. */
  datatype SortOrder = Asc | Desc

  /** The sortable column whose header was last clicked (`CurrentFilter`). */
  datatype FilterType = LabelColumn | DeploysColumn | RevisionColumn

  /** The server-side filter: `{ '+order_by': orderBy, '+order': order }`. */
  datatype Filter = Filter(orderBy: string, order: SortOrder)

  /** A user-definable parameter of a StackScript; the panel only passes it on. */
  datatype UserDefinedField = UserDefinedField(name: string)

  datatype StackScript = StackScript(
    id: int,
    scriptLabel: string,  // the script's `label` (a reserved word in Dafny)
    username: string,
    images: seq<string>,
    userDefinedFields: seq<UserDefinedField>)

  /** A public image; only its identifier matters to the panel. */
  datatype Image = Image(id: string)

  /** One page of the listing service's answer: the items and the total count. */
  datatype Response = Response(data: seq<StackScript>, results: int)

  /**
   * A call of the listing service: the user whose scripts are listed, the
   * page parameters and the filter, together with the `isSorting` flag the
   * response handler of that call will use.
   */
  datatype Request = Request(user: string, page: int, pageSize: int, filter: Filter, isSorting: bool)

  /** The arguments handed to the caller's `onSelect` callback. */
  datatype Selection = Selection(
    id: int,
    scriptLabel: string,  // the script's `label` (a reserved word in Dafny)
    username: string,
    images: seq<string>,
    userDefinedFields: seq<UserDefinedField>)

  const PageSize: int := 50

  /** The filter a freshly created container sorts by: most deployments first. */
  const InitialFilter: Filter := Filter("deployments_total", Desc)

  /** The wire spelling of a sort direction. */
  function OrderName(o: SortOrder): (name: string)
    ensures name == "asc" || name == "desc"
  {
    match o
    case Asc => "asc"
    case Desc => "desc"
  }

  /** The direction a header click switches to. */
  function Toggled(o: SortOrder): (r: SortOrder)
    ensures r != o
    ensures OrderName(r) != OrderName(o)
  {
    if o == Asc then Desc else Asc
  }

  lemma ToggledTwice(o: SortOrder)
    ensures Toggled(Toggled(o)) == o
  {
  }

  /** The `+order_by` key each sortable header sends. */
  function ColumnOrderBy(column: FilterType): (key: string)
    ensures key != InitialFilter.orderBy
  {
    match column
    case LabelColumn => "label"
    case DeploysColumn => "deployments_active"
    case RevisionColumn => "updated"
  }

  lemma ColumnOrderByInjective(c1: FilterType, c2: FilterType)
    ensures ColumnOrderBy(c1) == ColumnOrderBy(c2) <==> c1 == c2
  {
  }

  // ---------------------------------------------------------------------------
  // Deprecated images
  // ---------------------------------------------------------------------------

  /** Some image of the script is one of the public (non-deprecated) images. */
  predicate NonDeprecated(images: seq<string>, publicImages: seq<Image>)
  {
    exists i, j :: 0 <= i < |images| && 0 <= j < |publicImages| && images[i] == publicImages[j].id
  }

  /**
   * `hasNonDeprecatedImages`: two nested loops over the script's images and
   * the public images, returning as soon as one pair matches.
   */
  method HasNonDeprecatedImages(stackScriptImages: seq<string>, publicImages: seq<Image>) returns (found: bool)
    ensures found <==> NonDeprecated(stackScriptImages, publicImages)
    ensures |stackScriptImages| == 0 ==> !found
  {
    for i := 0 to |stackScriptImages|
      invariant forall k, j :: 0 <= k < i && 0 <= j < |publicImages| ==> stackScriptImages[k] != publicImages[j].id
    {
      for j := 0 to |publicImages|
        invariant forall m :: 0 <= m < j ==> stackScriptImages[i] != publicImages[m].id
      {
        if stackScriptImages[i] == publicImages[j].id {
          return true;
        }
      }
    }
    return false;
  }

  /** `Array.filter` with `hasNonDeprecatedImages` as the test; it never adds items. */
  function KeepNonDeprecated(s: seq<StackScript>, publicImages: seq<Image>): (r: seq<StackScript>)
    ensures |r| <= |s|
    ensures |r| == |s| ==> r == s
  {
    if s == [] then []
    else if NonDeprecated(s[0].images, publicImages) then [s[0]] + KeepNonDeprecated(s[1..], publicImages)
    else KeepNonDeprecated(s[1..], publicImages)
  }

  ghost predicate AllNonDeprecated(s: seq<StackScript>, publicImages: seq<Image>)
  {
    forall k :: 0 <= k < |s| ==> NonDeprecated(s[k].images, publicImages)
  }

  /** `sub` is `s` with some elements dropped, the others kept in order. */
  ghost predicate IsSubsequence<T>(sub: seq<T>, s: seq<T>)
    decreases |s|
  {
    if sub == [] then true
    else if s == [] then false
    else (sub[0] == s[0] && IsSubsequence(sub[1..], s[1..])) || IsSubsequence(sub, s[1..])
  }

  /** The filter keeps exactly the scripts with a non-deprecated image. */
  lemma {:induction false} KeepNonDeprecatedMembers(s: seq<StackScript>, publicImages: seq<Image>)
    ensures forall x :: x in KeepNonDeprecated(s, publicImages) <==> x in s && NonDeprecated(x.images, publicImages)
  {
    if s != [] {
      KeepNonDeprecatedMembers(s[1..], publicImages);
      assert forall x :: x in s <==> x == s[0] || x in s[1..];
    }
  }

  /** Everything the filter returns passes the test. */
  lemma {:induction false} KeepNonDeprecatedSound(s: seq<StackScript>, publicImages: seq<Image>)
    ensures AllNonDeprecated(KeepNonDeprecated(s, publicImages), publicImages)
  {
    KeepNonDeprecatedMembers(s, publicImages);
    var r := KeepNonDeprecated(s, publicImages);
    forall k | 0 <= k < |r|
      ensures NonDeprecated(r[k].images, publicImages)
    {
      assert r[k] in r;
    }
  }

  /** The filter keeps the relative order of the scripts it retains. */
  lemma {:induction false} KeepNonDeprecatedOrdered(s: seq<StackScript>, publicImages: seq<Image>)
    ensures IsSubsequence(KeepNonDeprecated(s, publicImages), s)
  {
    if s != [] {
      KeepNonDeprecatedOrdered(s[1..], publicImages);
      var rest := KeepNonDeprecated(s[1..], publicImages);
      if NonDeprecated(s[0].images, publicImages) {
        assert ([s[0]] + rest)[1..] == rest;
      } else if rest != [] {
        assert IsSubsequence(rest, s[1..]);
      }
    }
  }

  /** The filter keeps every copy of a retained script and no copy of a dropped one. */
  lemma {:induction false} KeepNonDeprecatedCounts(s: seq<StackScript>, publicImages: seq<Image>, x: StackScript)
    ensures multiset(KeepNonDeprecated(s, publicImages))[x] ==
            if NonDeprecated(x.images, publicImages) then multiset(s)[x] else 0
  {
    if s != [] {
      KeepNonDeprecatedCounts(s[1..], publicImages, x);
      assert s == [s[0]] + s[1..];
      assert multiset(s) == multiset([s[0]]) + multiset(s[1..]);
      if NonDeprecated(s[0].images, publicImages) {
        var rest := KeepNonDeprecated(s[1..], publicImages);
        assert multiset([s[0]] + rest) == multiset([s[0]]) + multiset(rest);
      }
    }
  }

  /** Filtering a concatenation filters each part. */
  lemma {:induction false} KeepNonDeprecatedAppend(a: seq<StackScript>, b: seq<StackScript>, publicImages: seq<Image>)
    ensures KeepNonDeprecated(a + b, publicImages) == KeepNonDeprecated(a, publicImages) + KeepNonDeprecated(b, publicImages)
  {
    if a != [] {
      assert (a + b)[0] == a[0];
      assert (a + b)[1..] == a[1..] + b;
      KeepNonDeprecatedAppend(a[1..], b, publicImages);
    } else {
      assert a + b == b;
    }
  }

  /** A list that already passes the test is left as it is. */
  lemma {:induction false} KeepNonDeprecatedIdentity(s: seq<StackScript>, publicImages: seq<Image>)
    requires AllNonDeprecated(s, publicImages)
    ensures KeepNonDeprecated(s, publicImages) == s
  {
    if s != [] {
      assert NonDeprecated(s[0].images, publicImages);
      assert AllNonDeprecated(s[1..], publicImages) by {
        forall k | 0 <= k < |s[1..]| ensures NonDeprecated(s[1..][k].images, publicImages) {
          assert s[1..][k] == s[k + 1];
        }
      }
      KeepNonDeprecatedIdentity(s[1..], publicImages);
    }
  }

  /** Filtering twice is filtering once. */
  lemma {:induction false} KeepNonDeprecatedIdempotent(s: seq<StackScript>, publicImages: seq<Image>)
    ensures KeepNonDeprecated(KeepNonDeprecated(s, publicImages), publicImages) == KeepNonDeprecated(s, publicImages)
  {
    KeepNonDeprecatedSound(s, publicImages);
    KeepNonDeprecatedIdentity(KeepNonDeprecated(s, publicImages), publicImages);
  }

  /** The filter comes back empty exactly when every script is deprecated. */
  lemma {:induction false} KeepNonDeprecatedEmpty(s: seq<StackScript>, publicImages: seq<Image>)
    ensures KeepNonDeprecated(s, publicImages) == [] <==> forall x :: x in s ==> !NonDeprecated(x.images, publicImages)
  {
    KeepNonDeprecatedMembers(s, publicImages);
    var r := KeepNonDeprecated(s, publicImages);
    if r != [] {
      assert r[0] in r;
    }
  }

  /**
   * Appending a page to a list that is already filtered: the old items are
   * kept in place and followed by the page's surviving items.
   */
  lemma AppendToFiltered(old_data: seq<StackScript>, page: seq<StackScript>, publicImages: seq<Image>)
    requires AllNonDeprecated(old_data, publicImages)
    ensures KeepNonDeprecated(old_data + page, publicImages) == old_data + KeepNonDeprecated(page, publicImages)
  {
    KeepNonDeprecatedAppend(old_data, page, publicImages);
    KeepNonDeprecatedIdentity(old_data, publicImages);
  }

  /**
   * Appending to a non-empty filtered list never gives an empty result, so an
   * appending response on shown data never triggers the next-page request.
   */
  lemma AppendToFilteredNonEmpty(old_data: seq<StackScript>, page: seq<StackScript>, publicImages: seq<Image>)
    requires old_data != [] && AllNonDeprecated(old_data, publicImages)
    ensures KeepNonDeprecated(old_data + page, publicImages) != []
  {
    AppendToFiltered(old_data, page, publicImages);
  }

  /** With public images A and B, the page [X-only, A-only] shows only the A script. */
  lemma DeprecatedExample(x: StackScript, a: StackScript)
    requires x.images == ["X"] && a.images == ["A"]
    ensures KeepNonDeprecated([x, a], [Image("A"), Image("B")]) == [a]
  {
    var pub := [Image("A"), Image("B")];
    assert !NonDeprecated(x.images, pub) by {
      assert "X" != "A" && "X" != "B";
    }
    assert NonDeprecated(a.images, pub) by {
      assert a.images[0] == pub[0].id;
    }
    assert [x, a][1..] == [a] && [a][1..] == [];
    calc {
      KeepNonDeprecated([x, a], pub);
      KeepNonDeprecated([a], pub);
      [a] + KeepNonDeprecated([], pub);
    }
  }

  // ---------------------------------------------------------------------------
  // Rendering conditions that depend on the state
  // ---------------------------------------------------------------------------

  /**
   * The header of `column` carries the sort-direction icon. Exactly one
   * header does: the last clicked one, or the active-deploys header before
   * any click (the initial sort is by deployments).
   */
  predicate SortIconOn(current: Option<FilterType>, column: FilterType): (shown: bool)
    ensures current.Some? ==> (shown <==> column == current.value)
    ensures current == None ==> (shown <==> column == DeploysColumn)
  {
    match column
    case LabelColumn => current == Some(LabelColumn)
    case DeploysColumn =>
      assert current.Some? && current.value != DeploysColumn ==>
        current == Some(LabelColumn) || current == Some(RevisionColumn);
      current != Some(LabelColumn) && current != Some(RevisionColumn)
    case RevisionColumn => current == Some(RevisionColumn)
  }

  // ---------------------------------------------------------------------------
  // The container
  // ---------------------------------------------------------------------------

  /**
   * The list container of one tab. Its props are constants; its component
   * state and the `mounted` flag are fields. `requests` logs every call of
   * the listing service, oldest first.
   */
  class Container {
    const publicImages: seq<Image>
    const isLinodeStackScripts: bool
    const profileUsername: string
    const hasOnSelect: bool

    var currentPage: int
    var selected: Option<int>
    var loading: bool
    var gettingMoreStackScripts: bool
    var showMoreButtonVisible: bool
    var data: seq<StackScript>
    var sortOrder: SortOrder
    var currentFilterType: Option<FilterType>
    var currentFilter: Filter
    var isSorting: bool
    var mounted: bool
    var requests: seq<Request>

    /**
     * Pages are counted from 1, the spinner shows exactly while there is no
     * data, and every script shown has a non-deprecated image.
     */
    ghost predicate Valid()
      reads this
    {
      && currentPage >= 1
      && (loading <==> data == [])
      && AllNonDeprecated(data, publicImages)
      && sortOrder == Toggled(currentFilter.order)
    }

    /**
     * The sort icon is an upward arrow when the stored order is descending.
     * That is exactly when the stored filter, the sort the list was last
     * asked for, is ascending.
     */
    predicate SortIconPointsUp(): (up: bool)
      reads this
      ensures up <==> OrderName(sortOrder) == "desc"
      ensures Valid() ==> (up <==> currentFilter.order == Asc)
    {
      sortOrder == Desc
    }

    /**
     * The owner whose scripts this tab lists: the Linode tab and a profile
     * named `linode` ask for the same user.
     */
    function FilteredUser(): (user: string)
      ensures user == "linode" <==> isLinodeStackScripts || profileUsername == "linode"
      ensures !isLinodeStackScripts ==> user == profileUsername
    {
      if isLinodeStackScripts then "linode" else profileUsername
    }

    /**
     * The "Show More StackScripts" button is rendered: not while the spinner
     * replaces the table, not once the end of the list was seen, and not
     * while a sort is pending. It only ever appears beside some scripts.
     */
    predicate ShowMoreShown(): (shown: bool)
      reads this
      ensures shown && Valid() ==> data != []
    {
      !loading && showMoreButtonVisible && !isSorting
    }

    constructor (publicImages: seq<Image>, isLinodeStackScripts: bool, profileUsername: string, hasOnSelect: bool)
      ensures Valid()
      ensures this.publicImages == publicImages && this.isLinodeStackScripts == isLinodeStackScripts
      ensures this.profileUsername == profileUsername && this.hasOnSelect == hasOnSelect
      ensures currentPage == 1 && selected == None && loading && !gettingMoreStackScripts
      ensures data == [] && showMoreButtonVisible && sortOrder == Asc
      ensures currentFilterType == None && currentFilter == InitialFilter && !isSorting
      ensures !mounted && requests == []
    {
      this.publicImages := publicImages;
      this.isLinodeStackScripts := isLinodeStackScripts;
      this.profileUsername := profileUsername;
      this.hasOnSelect := hasOnSelect;
      currentPage := 1;
      selected := None;
      loading := true;
      gettingMoreStackScripts := false;
      data := [];
      showMoreButtonVisible := true;
      sortOrder := Asc;
      currentFilterType := None;
      currentFilter := InitialFilter;
      isSorting := false;
      mounted := false;
      requests := [];
    }

    /** `getDataAtPage`, up to the sending of the request. */
    method GetDataAtPage(page: int, filter: Filter, sorting: bool)
      requires Valid()
      modifies this`gettingMoreStackScripts, this`isSorting, this`requests
      ensures Valid()
      ensures gettingMoreStackScripts && isSorting == sorting
      ensures requests == old(requests) + [Request(FilteredUser(), page, PageSize, filter, sorting)]
    {
      gettingMoreStackScripts, isSorting := true, sorting;
      requests := requests + [Request(FilteredUser(), page, PageSize, filter, sorting)];
    }

    /** `componentDidMount`: request page 0 with the stored filter, then mark mounted. */
    method ComponentDidMount()
      requires Valid()
      modifies this`gettingMoreStackScripts, this`isSorting, this`requests, this`mounted
      ensures Valid()
      ensures mounted && gettingMoreStackScripts && !isSorting
      ensures requests == old(requests) + [Request(FilteredUser(), 0, PageSize, currentFilter, false)]
    {
      GetDataAtPage(0, currentFilter, false);
      mounted := true;
    }

    /** `componentWillUnmount`. */
    method ComponentWillUnmount()
      requires Valid()
      modifies this`mounted
      ensures Valid() && !mounted
    {
      mounted := false;
    }

    /**
     * `getNext`: when mounted, advance `currentPage` and request that page
     * with the stored filter and the stored `isSorting`.
     */
    method GetNext()
      requires Valid()
      modifies this`currentPage, this`gettingMoreStackScripts, this`isSorting, this`requests
      ensures Valid()
      ensures !mounted ==> unchanged(this)
      ensures mounted ==>
        && currentPage == old(currentPage) + 1
        && gettingMoreStackScripts && isSorting == old(isSorting)
        && requests == old(requests) + [Request(FilteredUser(), old(currentPage) + 1, PageSize, currentFilter, old(isSorting))]
    {
      if !mounted {
        return;
      }
      currentPage := currentPage + 1;
      GetDataAtPage(currentPage, currentFilter, isSorting);
    }

    /**
     * The success handler of the request `req`. A sorting request replaces
     * the data, any other appends to it; deprecated scripts are dropped; an
     * empty result leaves the data alone and asks for the next page instead.
     */
    method OnResponse(req: Request, response: Response)
      requires Valid()
      requires req in requests
      modifies this`showMoreButtonVisible, this`data, this`gettingMoreStackScripts, this`loading,
               this`isSorting, this`currentPage, this`requests
      ensures Valid()
      ensures !old(mounted) ==> unchanged(this)
      ensures old(mounted) ==>
        showMoreButtonVisible == (old(showMoreButtonVisible) && |response.data| != 0 && |response.data| != response.results)
      ensures old(mounted) ==>
        var merged := if req.isSorting then response.data else old(data) + response.data;
        var kept := KeepNonDeprecated(merged, publicImages);
        if kept == [] then
          && data == old(data) && loading == old(loading)
          && currentPage == old(currentPage) + 1
          && gettingMoreStackScripts && isSorting == old(isSorting)
          && requests == old(requests) + [Request(FilteredUser(), old(currentPage) + 1, PageSize, currentFilter, old(isSorting))]
        else
          && data == kept
          && !gettingMoreStackScripts && !loading && !isSorting
          && currentPage == old(currentPage) && requests == old(requests)
      ensures old(mounted) && !req.isSorting && data != old(data) ==>
        data == old(data) + KeepNonDeprecated(response.data, publicImages)
      ensures old(mounted) && !req.isSorting && old(data) != [] ==>
        && requests == old(requests) && currentPage == old(currentPage)
        && data == old(data) + KeepNonDeprecated(response.data, publicImages)
    {
      if !mounted {
        return;
      }
      if |response.data| == 0 || |response.data| == response.results {
        showMoreButtonVisible := false;
      }
      var newData := if req.isSorting then response.data else data + response.data;
      var kept := KeepNonDeprecated(newData, publicImages);
      if !req.isSorting && data != [] {
        AppendToFilteredNonEmpty(data, response.data, publicImages);
      }
      if |kept| == 0 {
        GetNext();
        return;
      }
      KeepNonDeprecatedSound(newData, publicImages);
      if !req.isSorting {
        AppendToFiltered(data, response.data, publicImages);
      }
      data, gettingMoreStackScripts, loading, isSorting := kept, false, false, false;
    }

    /** The failure handler: when mounted, only the in-flight flag is cleared. */
    method OnFailure()
      requires Valid()
      modifies this`gettingMoreStackScripts
      ensures Valid()
      ensures !old(mounted) ==> unchanged(this)
      ensures old(mounted) ==> !gettingMoreStackScripts
    {
      if !mounted {
        return;
      }
      gettingMoreStackScripts := false;
    }

    /**
     * `handleSelectStackScript`: without an `onSelect` prop nothing happens;
     * otherwise the callback receives the script's fields and the script
     * becomes the selected one.
     */
    method HandleSelectStackScript(s: StackScript) returns (call: Option<Selection>)
      requires Valid()
      modifies this`selected
      ensures Valid()
      ensures !hasOnSelect ==> call == None && selected == old(selected)
      ensures hasOnSelect ==>
        && call == Some(Selection(s.id, s.scriptLabel, s.username, s.images, s.userDefinedFields))
        && selected == Some(s.id)
    {
      if !hasOnSelect {
        return None;
      }
      call := Some(Selection(s.id, s.scriptLabel, s.username, s.images, s.userDefinedFields));
      selected := Some(s.id);
    }

    /**
     * The three sortable headers (label, active deploys, last revision):
     * request page 1 as a sorting request ordered by the column in the
     * current direction, store that filter, and flip the direction.
     * `currentPage` is left as it is.
     */
    method HandleClickTableHeader(column: FilterType)
      requires Valid()
      modifies this`gettingMoreStackScripts, this`isSorting, this`requests,
               this`sortOrder, this`currentFilterType, this`currentFilter
      ensures Valid()
      ensures sortOrder == Toggled(old(sortOrder))
      ensures currentFilterType == Some(column)
      ensures currentFilter == Filter(ColumnOrderBy(column), old(sortOrder))
      ensures requests == old(requests) + [Request(FilteredUser(), 1, PageSize, currentFilter, true)]
      ensures gettingMoreStackScripts && isSorting
      ensures !ShowMoreShown()
      ensures SortIconOn(currentFilterType, column)
      ensures SortIconPointsUp() <==> currentFilter.order == Asc
    {
      var order := sortOrder;
      var nextSortOrder := Toggled(order);
      GetDataAtPage(1, Filter(ColumnOrderBy(column), order), true);
      sortOrder, currentFilterType, currentFilter := nextSortOrder, Some(column), Filter(ColumnOrderBy(column), order);
    }

    /**
     * A click on a sortable header of the rendered table: while `loading`
     * only the spinner is rendered, so there is no header to click.
     */
    method ClickTableHeader(column: FilterType)
      requires Valid()
      modifies this`gettingMoreStackScripts, this`isSorting, this`requests,
               this`sortOrder, this`currentFilterType, this`currentFilter
      ensures Valid()
      ensures old(loading) ==> unchanged(this)
      ensures !old(loading) ==>
        && sortOrder == Toggled(old(sortOrder)) && currentFilterType == Some(column)
        && currentFilter == Filter(ColumnOrderBy(column), old(sortOrder))
        && requests == old(requests) + [Request(FilteredUser(), 1, PageSize, currentFilter, true)]
        && gettingMoreStackScripts && isSorting
    {
      if !loading {
        HandleClickTableHeader(column);
      }
    }

    /**
     * A click on the "Show More StackScripts" button: it is only rendered
     * when `ShowMoreShown()` holds, and it is disabled while a request is in
     * flight.
     */
    method ClickShowMore()
      requires Valid()
      modifies this`currentPage, this`gettingMoreStackScripts, this`isSorting, this`requests
      ensures Valid()
      ensures !old(ShowMoreShown()) || old(gettingMoreStackScripts) || !mounted ==>
        unchanged(this)
      ensures old(ShowMoreShown()) && !old(gettingMoreStackScripts) && mounted ==>
        && old(data) != []
        && currentPage == old(currentPage) + 1 && gettingMoreStackScripts && !isSorting
        && requests == old(requests) + [Request(FilteredUser(), old(currentPage) + 1, PageSize, currentFilter, false)]
    {
      if ShowMoreShown() && !gettingMoreStackScripts {
        GetNext();
      }
    }
  }

  /**
   * Two clicks on a header restore the direction and send two replacing
   * requests for page 1, both ordered by that column, in opposite directions.
   */
  method HeaderClickedTwice(c: Container, column: FilterType)
    requires c.Valid()
    modifies c`gettingMoreStackScripts, c`isSorting, c`requests, c`sortOrder, c`currentFilterType, c`currentFilter
    ensures c.Valid()
    ensures c.sortOrder == old(c.sortOrder)
    ensures |c.requests| == |old(c.requests)| + 2
    ensures c.requests[..|old(c.requests)|] == old(c.requests)
    ensures c.requests[|c.requests| - 2].filter.order == old(c.sortOrder)
    ensures c.requests[|c.requests| - 1].filter.order == Toggled(old(c.sortOrder))
    ensures c.requests[|c.requests| - 2].page == 1 && c.requests[|c.requests| - 1].page == 1
    ensures c.requests[|c.requests| - 2].isSorting && c.requests[|c.requests| - 1].isSorting
    ensures c.requests[|c.requests| - 2].filter.orderBy == ColumnOrderBy(column)
    ensures c.requests[|c.requests| - 1].filter.orderBy == ColumnOrderBy(column)
    ensures c.currentFilterType == Some(column) && c.currentFilter == c.requests[|c.requests| - 1].filter
    ensures c.gettingMoreStackScripts && c.isSorting
  {
    c.HandleClickTableHeader(column);
    c.HandleClickTableHeader(column);
    ToggledTwice(old(c.sortOrder));
  }

  /**
   * A tab with no scripts at all: the first page comes back empty, which
   * hides "show more", yet every empty answer asks for the next page, so the
   * container keeps requesting pages for as long as it is mounted.
   */
  method EmptyListingKeepsRequesting(publicImages: seq<Image>, isLinodeStackScripts: bool, profileUsername: string, hasOnSelect: bool)
    returns (c: Container)
    ensures c.Valid() && c.mounted && c.loading && c.data == []
    ensures !c.showMoreButtonVisible && c.gettingMoreStackScripts
    ensures |c.requests| == 3
    ensures c.requests[0].page == 0 && c.requests[1].page == 2 && c.requests[2].page == 3
  {
    c := new Container(publicImages, isLinodeStackScripts, profileUsername, hasOnSelect);
    c.ComponentDidMount();
    c.OnResponse(c.requests[0], Response([], 0));
    c.OnResponse(c.requests[1], Response([], 0));
  }
}
