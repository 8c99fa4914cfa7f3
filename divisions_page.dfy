/** The divisions list: the fetch it issues for the current page and search, the search
    address update, and the edit dialog's open state. */
module DivisionsPage {
  import opened Wrappers
  import Decimal
  import Http
  import Listing
  import DivisionModal

  type Division = DivisionModal.Division

  /** The query of `fetchDivisions`, in order: `page` and `per_page` always, then `name`
      only when the search term is non-empty. */
  function FetchQuery(currentPage: int, searchTerm: string): (r: seq<(string, string)>)
    ensures |r| == 2 + (if searchTerm != "" then 1 else 0)
    ensures r[0] == ("page", Decimal.IntToString(currentPage)) && r[1] == ("per_page", "10")
    ensures Listing.Lookup(r, "name") == if searchTerm != "" then Some(searchTerm) else None
  {
    var fixed := [("page", Decimal.IntToString(currentPage)), ("per_page", "10")];
    var name := if searchTerm != "" then [("name", searchTerm)] else [];
    Listing.LookupAppend(fixed, name, "name");
    fixed + name
  }

  class DivisionsPage {
    const api: Http.ApiClient
    var divisions: seq<Division>
    var loading: bool
    var modalOpen: bool
    var selectedDivision: Option<Division>
    var searchTerm: string
    var totalPages: int
    /** The address's search parameters. */
    var query: map<string, string>

    constructor (api: Http.ApiClient, query: map<string, string>)
      ensures this.api == api && this.query == query
      ensures divisions == [] && loading && !modalOpen && selectedDivision == None
      ensures searchTerm == "" && totalPages == 0
    {
      this.api := api;
      this.query := query;
      divisions := [];
      loading := true;
      modalOpen := false;
      selectedDivision := None;
      searchTerm := "";
      totalPages := 0;
    }

    /** `fetchDivisions`: the query it sends, and how the reply (seen by the client's
        interceptor) replaces the list and the page count; a failed fetch keeps both. */
    method Fetch(reply: Http.Reply<Listing.ListBody<Division>>) returns (sent: seq<(string, string)>)
      requires Listing.PageParamReadable(query)
      modifies this`divisions, this`totalPages, this`loading, api.window`storage, api.window`location
      ensures sent == FetchQuery(Listing.CurrentPage(query), searchTerm)
      ensures Listing.Received(reply).Some? ==>
        divisions == Listing.Received(reply).value.0 && totalPages == Listing.Received(reply).value.1
      ensures Listing.Received(reply).None? ==> divisions == old(divisions) && totalPages == old(totalPages)
      ensures !loading
      ensures api.window.storage == Http.StorageAfter(old(api.window.storage), Http.ErrorOf(reply))
      ensures api.window.location == Http.LocationAfter(old(api.window.location), Http.ErrorOf(reply))
    {
      loading := true;
      sent := FetchQuery(Listing.CurrentPage(query), searchTerm);
      var received := api.Receive(reply);
      if received.Ok? && received.body.data.Some? {
        divisions := received.body.data.value.rows.GetOr([]);
        totalPages := Listing.TotalPages(received.body.total);
      }
      loading := false;
    }

    /** Typing in the search box. */
    method SetSearchTerm(term: string)
      modifies this`searchTerm
      ensures searchTerm == term
    {
      searchTerm := term;
    }

    /** `handleSearch`: copies the parameters, edits the copy and navigates to it. */
    method HandleSearch()
      modifies this`query
      ensures query == Listing.SearchQuery(old(query), searchTerm)
    {
      var params := query;
      params := params["page" := "1"];
      if searchTerm != "" {
        params := params["search" := searchTerm];
      } else {
        params := params - {"search"};
      }
      query := params;
    }

    /** The add button opens the dialog. */
    method HandleAdd()
      modifies this`modalOpen
      ensures modalOpen
    {
      modalOpen := true;
    }

    method HandleEdit(division: Division)
      modifies this`selectedDivision, this`modalOpen
      ensures selectedDivision == Some(division) && modalOpen
    {
      selectedDivision := Some(division);
      modalOpen := true;
    }

    method HandleModalClose()
      modifies this`selectedDivision, this`modalOpen
      ensures selectedDivision == None && !modalOpen
    {
      modalOpen := false;
      selectedDivision := None;
    }

    /** After a successful save: close the dialog, then fetch again. */
    method HandleSubmitSuccess(reply: Http.Reply<Listing.ListBody<Division>>) returns (sent: seq<(string, string)>)
      requires Listing.PageParamReadable(query)
      modifies this`selectedDivision, this`modalOpen, this`divisions, this`totalPages, this`loading
      modifies api.window`storage, api.window`location
      ensures selectedDivision == None && !modalOpen && !loading
      ensures sent == FetchQuery(Listing.CurrentPage(query), searchTerm)
      ensures Listing.Received(reply).Some? ==>
        divisions == Listing.Received(reply).value.0 && totalPages == Listing.Received(reply).value.1
      ensures Listing.Received(reply).None? ==> divisions == old(divisions) && totalPages == old(totalPages)
      ensures api.window.storage == Http.StorageAfter(old(api.window.storage), Http.ErrorOf(reply))
      ensures api.window.location == Http.LocationAfter(old(api.window.location), Http.ErrorOf(reply))
    {
      HandleModalClose();
      sent := Fetch(reply);
    }
  }
}
