/** The employees list: the fetch it issues for the current page, search and division
    filter, the search and filter address updates, and the edit dialog's open state. */
module EmployeesPage {
  import opened Wrappers
  import Decimal
  import Http
  import Listing
  import EmployeeModal

  type Employee = EmployeeModal.Employee

  /** The query of `fetchEmployees`, in order: `page` and `per_page` always, then `name`
      and `division_id` only when the search term and the chosen division are non-empty. */
  function FetchQuery(currentPage: int, searchTerm: string, selectedDivision: string): (r: seq<(string, string)>)
    ensures |r| == 2 + (if searchTerm != "" then 1 else 0) + (if selectedDivision != "" then 1 else 0)
    ensures r[0] == ("page", Decimal.IntToString(currentPage)) && r[1] == ("per_page", "10")
    ensures Listing.Lookup(r, "name") == if searchTerm != "" then Some(searchTerm) else None
    ensures Listing.Lookup(r, "division_id") == if selectedDivision != "" then Some(selectedDivision) else None
  {
    var fixed := [("page", Decimal.IntToString(currentPage)), ("per_page", "10")];
    var name := if searchTerm != "" then [("name", searchTerm)] else [];
    var division := if selectedDivision != "" then [("division_id", selectedDivision)] else [];
    Listing.LookupAppend(fixed, name, "name");
    Listing.LookupAppend(fixed + name, division, "name");
    Listing.LookupAppend(fixed, name, "division_id");
    Listing.LookupAppend(fixed + name, division, "division_id");
    fixed + name + division
  }

  /** `handleDivisionFilter`'s address: back to page 1 and `division` set to the choice,
      even an empty one; every other parameter kept. */
  function DivisionFilterQuery(query: map<string, string>, division: string): (r: map<string, string>)
    ensures r.Keys == query.Keys + {"page", "division"}
    ensures r["page"] == "1" && r["division"] == division
    ensures forall k :: k in query && k != "page" && k != "division" ==> r[k] == query[k]
  {
    query["page" := "1"]["division" := division]
  }

  /** Choosing a division also brings the list back to its first page. */
  lemma FilterRestartsAtFirstPage(query: map<string, string>, division: string)
    ensures Listing.PageParamReadable(DivisionFilterQuery(query, division))
    ensures Listing.CurrentPage(DivisionFilterQuery(query, division)) == 1
  {
    assert Decimal.IntToString(1) == "1";
  }

  class EmployeesPage {
    const api: Http.ApiClient
    var employees: seq<Employee>
    var loading: bool
    var modalOpen: bool
    var selectedEmployee: Option<Employee>
    var searchTerm: string
    var selectedDivision: string
    var totalPages: int
    /** The address's search parameters. */
    var query: map<string, string>

    constructor (api: Http.ApiClient, query: map<string, string>)
      ensures this.api == api && this.query == query
      ensures employees == [] && loading && !modalOpen && selectedEmployee == None
      ensures searchTerm == "" && selectedDivision == "" && totalPages == 0
    {
      this.api := api;
      this.query := query;
      employees := [];
      loading := true;
      modalOpen := false;
      selectedEmployee := None;
      searchTerm := "";
      selectedDivision := "";
      totalPages := 0;
    }

    /** `fetchEmployees`: the query it sends, and how the reply (seen by the client's
        interceptor) replaces the list and the page count; a failed fetch keeps both. */
    method Fetch(reply: Http.Reply<Listing.ListBody<Employee>>) returns (sent: seq<(string, string)>)
      requires Listing.PageParamReadable(query)
      modifies this`employees, this`totalPages, this`loading, api.window`storage, api.window`location
      ensures sent == FetchQuery(Listing.CurrentPage(query), searchTerm, selectedDivision)
      ensures Listing.Received(reply).Some? ==>
        employees == Listing.Received(reply).value.0 && totalPages == Listing.Received(reply).value.1
      ensures Listing.Received(reply).None? ==> employees == old(employees) && totalPages == old(totalPages)
      ensures !loading
      ensures api.window.storage == Http.StorageAfter(old(api.window.storage), Http.ErrorOf(reply))
      ensures api.window.location == Http.LocationAfter(old(api.window.location), Http.ErrorOf(reply))
    {
      loading := true;
      sent := FetchQuery(Listing.CurrentPage(query), searchTerm, selectedDivision);
      var received := api.Receive(reply);
      if received.Ok? && received.body.data.Some? {
        employees := received.body.data.value.rows.GetOr([]);
        totalPages := Listing.TotalPages(received.body.total);
      }
      loading := false;
    }

    /** Typing in the search box. */
    method SetSearchTerm(term: string)
      modifies this`searchTerm
      ensures searchTerm == term
    {
      searchTerm := term;
    }

    /** `handleSearch`: copies the parameters, edits the copy and navigates to it. */
    method HandleSearch()
      modifies this`query
      ensures query == Listing.SearchQuery(old(query), searchTerm)
    {
      var params := query;
      params := params["page" := "1"];
      if searchTerm != "" {
        params := params["search" := searchTerm];
      } else {
        params := params - {"search"};
      }
      query := params;
    }

    /** `handleDivisionFilter`: remembers the division for the fetch and puts it in the address. */
    method HandleDivisionFilter(division: string)
      modifies this`selectedDivision, this`query
      ensures selectedDivision == division
      ensures query == DivisionFilterQuery(old(query), division)
    {
      selectedDivision := division;
      var params := query;
      params := params["page" := "1"];
      params := params["division" := division];
      query := params;
    }

    /** The add button opens the dialog. */
    method HandleAdd()
      modifies this`modalOpen
      ensures modalOpen
    {
      modalOpen := true;
    }

    method HandleEdit(employee: Employee)
      modifies this`selectedEmployee, this`modalOpen
      ensures selectedEmployee == Some(employee) && modalOpen
    {
      selectedEmployee := Some(employee);
      modalOpen := true;
    }

    method HandleModalClose()
      modifies this`selectedEmployee, this`modalOpen
      ensures selectedEmployee == None && !modalOpen
    {
      modalOpen := false;
      selectedEmployee := None;
    }

    /** After a successful save: close the dialog, then fetch again. */
    method HandleSubmitSuccess(reply: Http.Reply<Listing.ListBody<Employee>>) returns (sent: seq<(string, string)>)
      requires Listing.PageParamReadable(query)
      modifies this`selectedEmployee, this`modalOpen, this`employees, this`totalPages, this`loading
      modifies api.window`storage, api.window`location
      ensures selectedEmployee == None && !modalOpen && !loading
      ensures sent == FetchQuery(Listing.CurrentPage(query), searchTerm, selectedDivision)
      ensures Listing.Received(reply).Some? ==>
        employees == Listing.Received(reply).value.0 && totalPages == Listing.Received(reply).value.1
      ensures Listing.Received(reply).None? ==> employees == old(employees) && totalPages == old(totalPages)
      ensures api.window.storage == Http.StorageAfter(old(api.window.storage), Http.ErrorOf(reply))
      ensures api.window.location == Http.LocationAfter(old(api.window.location), Http.ErrorOf(reply))
    {
      HandleModalClose();
      sent := Fetch(reply);
    }
  }
}
