/** `UsersPage`: the search and paging state, the choice between a list fetch and a search, the
    pagination controls and which view is shown. */
module UsersPage {
  import opened Wrappers
  import opened Api
  import opened Text
  import opened Json
  import opened UseApi

  const PageSize: int := 10

  datatype Pagination = Pagination(page: int, limit: int, total: int, totalPages: int)
  datatype PaginatedResponse = PaginatedResponse(data: seq<User>, pagination: Pagination)

  /** `PaginationParams`; an absent sort or order is left out of the query. */
  datatype ListParams = ListParams(page: int, limit: int, sort: Option<string>, order: Option<string>)

  /** The request the page issues. */
  datatype Request = FetchList(params: ListParams) | Search(query: string)

  /** The effect's choice: a search, with the untrimmed term, when the trimmed term is non-empty;
      otherwise the list page `currentPage`, ten per page, newest first. */
  function RequestFor(searchTerm: string, currentPage: int): (r: Request)
    ensures r.Search? <==> Trim(searchTerm) != ""
    ensures r.Search? ==> r.query == searchTerm
    ensures r.FetchList? ==> r.params == ListParams(currentPage, PageSize, Some("createdAt"), Some("desc"))
  {
    if Trim(searchTerm) != "" then Search(searchTerm)
    else FetchList(ListParams(currentPage, PageSize, Some("createdAt"), Some("desc")))
  }

  /** The Retry button's request: the current page, ten per page, without sort or order. */
  function RetryRequest(currentPage: int): (r: Request)
    ensures r.FetchList? && r.params.page == currentPage && r.params.limit == PageSize
    ensures r.params.sort.None? && r.params.order.None?
  {
    FetchList(ListParams(currentPage, PageSize, None, None))
  }

  datatype Pager = Pager(currentPage: int, totalPages: int, previousDisabled: bool, nextDisabled: bool)

  /** The pagination controls: shown only for an empty search term and more than one page;
      Previous is disabled exactly on page 1 and Next exactly on the last page. */
  function PagerFor(searchTerm: string, currentPage: int, totalPages: int): (p: Option<Pager>)
    ensures p.Some? <==> searchTerm == "" && totalPages > 1
    ensures p.Some? ==> p.value.currentPage == currentPage && p.value.totalPages == totalPages
    ensures p.Some? ==> (p.value.previousDisabled <==> currentPage == 1)
    ensures p.Some? ==> (p.value.nextDisabled <==> currentPage == totalPages)
  {
    if searchTerm == "" && totalPages > 1
    then Some(Pager(currentPage, totalPages, currentPage == 1, currentPage == totalPages))
    else None
  }

  /** What the empty view says. */
  datatype EmptyNotice = NoUsers | NoSearchMatches {
    function Message(): string {
      match this
      case NoUsers => "No users found"
      case NoSearchMatches => "No users found matching your search"
    }
  }

  /** The four mutually exclusive views of the table area. */
  datatype UsersView =
    | LoadingSpinner
    | ListError(error: ApiError)
    | Table(users: seq<User>, pager: Option<Pager>)
    | EmptyList(notice: EmptyNotice)

  /** View precedence: loading (either request), then the list request's error, then a non-empty
      table, then the empty notice. The search request's error is not an input: it is never shown. */
  function ViewFor(usersLoading: bool, searchLoading: bool, usersError: Option<ApiError>,
                   users: seq<User>, searchTerm: string, currentPage: int, totalPages: int): (v: UsersView)
    ensures v.LoadingSpinner? <==> usersLoading || searchLoading
    ensures v.ListError? <==> !usersLoading && !searchLoading && usersError.Some?
    ensures v.ListError? ==> v.error == usersError.value
    ensures v.Table? <==> !usersLoading && !searchLoading && usersError.None? && |users| > 0
    ensures v.Table? ==> v.users == users && v.pager == PagerFor(searchTerm, currentPage, totalPages)
    ensures v.EmptyList? <==> !usersLoading && !searchLoading && usersError.None? && |users| == 0
    ensures v.EmptyList? ==> (v.notice == NoSearchMatches <==> searchTerm != "")
  {
    if usersLoading || searchLoading then LoadingSpinner
    else if usersError.Some? then ListError(usersError.value)
    else if |users| > 0 then Table(users, PagerFor(searchTerm, currentPage, totalPages))
    else EmptyList(if searchTerm != "" then NoSearchMatches else NoUsers)
  }

  /** A term of blanks only fetches the paginated list, yet hides its pagination controls, because
      the fetch choice trims the term and the pagination test does not. */
  lemma BlankTermHidesPagination(searchTerm: string, currentPage: int, totalPages: int)
    requires searchTerm != [] && forall i :: 0 <= i < |searchTerm| ==> IsWhitespace(searchTerm[i])
    ensures RequestFor(searchTerm, currentPage).FetchList?
    ensures PagerFor(searchTerm, currentPage, totalPages).None?
  {
    TrimEmptyIffBlank(searchTerm);
  }

  class Page {
    var users: seq<User>
    var searchTerm: string
    var currentPage: int
    var totalPages: int
    const usersHook: ApiHook<PaginatedResponse>
    const searchHook: ApiHook<seq<User>>

    ghost predicate Valid()
      reads this
    {
      usersHook as object != searchHook as object
    }

    /** No users, empty search, page 1 of 1, both requests idle. */
    constructor ()
      ensures Valid()
      ensures users == [] && searchTerm == "" && currentPage == 1 && totalPages == 1
      ensures usersHook.state == Idle() && searchHook.state == Idle()
      ensures fresh(usersHook) && fresh(searchHook)
    {
      users := [];
      searchTerm := "";
      currentPage := 1;
      totalPages := 1;
      usersHook := new ApiHook(false);
      searchHook := new ApiHook(false);
    }

    /** `handleSearch`: the new term, and back to the first page. */
    method HandleSearch(value: string)
      modifies this
      ensures searchTerm == value && currentPage == 1
      ensures users == old(users) && totalPages == old(totalPages)
    {
      searchTerm := value;
      currentPage := 1;
    }

    /** `handlePageChange`: the page only. */
    method HandlePageChange(page: int)
      modifies this
      ensures currentPage == page
      ensures users == old(users) && searchTerm == old(searchTerm) && totalPages == old(totalPages)
    {
      currentPage := page;
    }

    /** The effect that follows a change of term or page: it starts the request `RequestFor` chooses
        on the matching wrapper and leaves the other wrapper alone. */
    method RunEffect() returns (request: Request)
      requires Valid()
      modifies usersHook, searchHook
      ensures request == RequestFor(searchTerm, currentPage)
      ensures request.Search? ==> searchHook.state == Begun(old(searchHook.state)) && unchanged(usersHook)
      ensures request.FetchList? ==> usersHook.state == Begun(old(usersHook.state)) && unchanged(searchHook)
    {
      if Trim(searchTerm) != "" {
        searchHook.Begin();
        request := Search(searchTerm);
      } else {
        usersHook.Begin();
        request := FetchList(ListParams(currentPage, PageSize, Some("createdAt"), Some("desc")));
      }
    }

    /** The Retry button: the list wrapper starts again with `RetryRequest`. */
    method Retry() returns (request: Request)
      requires Valid()
      modifies usersHook
      ensures request == RetryRequest(currentPage)
      ensures usersHook.state == Begun(old(usersHook.state))
    {
      usersHook.Begin();
      request := FetchList(ListParams(currentPage, PageSize, None, None));
    }

    /** The list request settles: on success the page shows its users and takes the reply's page
        count; on failure the users and page count stay. */
    method SettleList(outcome: Outcome<PaginatedResponse>) returns (r: Result<PaginatedResponse, ApiError>)
      requires Valid()
      modifies this, usersHook
      ensures Valid() && unchanged(searchHook)
      ensures usersHook.state == Settled(old(usersHook.state), outcome)
      ensures searchTerm == old(searchTerm) && currentPage == old(currentPage)
      ensures outcome.Resolved? ==>
                r == Ok(outcome.value) && users == outcome.value.data &&
                totalPages == outcome.value.pagination.totalPages
      ensures outcome.Rejected? ==> r == Err(outcome.error) && users == old(users) && totalPages == old(totalPages)
    {
      r := usersHook.Settle(outcome);
      if outcome.Resolved? {
        users := outcome.value.data;
        totalPages := outcome.value.pagination.totalPages;
      }
    }

    /** The search request settles: on success the page shows the matches as a single page. */
    method SettleSearch(outcome: Outcome<seq<User>>) returns (r: Result<seq<User>, ApiError>)
      requires Valid()
      modifies this, searchHook
      ensures Valid() && unchanged(usersHook)
      ensures searchHook.state == Settled(old(searchHook.state), outcome)
      ensures searchTerm == old(searchTerm) && currentPage == old(currentPage)
      ensures outcome.Resolved? ==> r == Ok(outcome.value) && users == outcome.value && totalPages == 1
      ensures outcome.Rejected? ==> r == Err(outcome.error) && users == old(users) && totalPages == old(totalPages)
    {
      r := searchHook.Settle(outcome);
      if outcome.Resolved? {
        users := outcome.value;
        totalPages := 1;
      }
    }

    /** The table area as rendered now. */
    function Render(): UsersView
      reads this, usersHook, searchHook
    {
      ViewFor(usersHook.state.loading, searchHook.state.loading, usersHook.state.error,
              users, searchTerm, currentPage, totalPages)
    }

    /** "All Users" or, for a non-empty term, "Search Results". */
    function Heading(): (h: string)
      reads this
    {
      if searchTerm != "" then "Search Results" else "All Users"
    }
  }

  /** The list scenario: page 1 of a listing of ten users in five pages. */
  method ListScenario(tenUsers: seq<User>)
    requires |tenUsers| == 10
  {
    var page := new Page();
    var request := page.RunEffect();
    assert Trim("") == "";
    assert request == FetchList(ListParams(1, 10, Some("createdAt"), Some("desc")));
    var r := page.SettleList(Resolved(PaginatedResponse(tenUsers, Pagination(1, 10, 50, 5))));
    assert |page.users| == 10 && page.totalPages == 5;
    var view := page.Render();
    assert view == Table(tenUsers, Some(Pager(1, 5, true, false)));
  }
}
