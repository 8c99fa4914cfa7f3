/** What the employees and divisions list pages share: ten rows per page, the page
    number read from the address, the page count, the search and filter address
    updates, and how a list reply is taken in. */
module Listing {
  import opened Wrappers
  import Decimal
  import Pagination
  import Http

  const PerPage := 10

  /** `Math.ceil((total || 0) / 10)`: the fewest pages of ten that hold `total` rows. */
  function TotalPages(total: Option<int>): (r: int)
    ensures var n := total.GetOr(0); (r - 1) * PerPage < n <= r * PerPage
  {
    var n := total.GetOr(0);
    -((-n) / PerPage)
  }

  /** The `page` parameter is absent, empty, or an integer literal. */
  predicate PageParamReadable(query: map<string, string>) {
    "page" in query && query["page"] != "" ==> Decimal.IsNumeric(query["page"])
  }

  /** `parseInt(searchParams.get('page') || '1')`. */
  function CurrentPage(query: map<string, string>): (r: int)
    requires PageParamReadable(query)
    ensures "page" !in query || query["page"] == "" ==> r == 1
  {
    if "page" !in query || query["page"] == "" then 1 else Decimal.ParseInt(query["page"])
  }

  /** A page chosen in the navigator is the page the list reads back from the address. */
  lemma CurrentPageAfterUpdate(query: map<string, string>, page: int)
    ensures PageParamReadable(Pagination.UpdatePage(query, page))
    ensures CurrentPage(Pagination.UpdatePage(query, page)) == page
  {
    Decimal.ParseIntOfIntToString(page);
  }

  /** The first value stored under `key` in an ordered query. */
  function Lookup(query: seq<(string, string)>, key: string): (r: Option<string>)
    ensures r.Some? ==> exists i :: 0 <= i < |query| && query[i] == (key, r.value)
    ensures r.None? ==> forall i :: 0 <= i < |query| ==> query[i].0 != key
  {
    if query == [] then None
    else if query[0].0 == key then Some(query[0].1)
    else Lookup(query[1..], key)
  }

  /** Looking a key up in two queries joined: the first query's value wins. */
  lemma {:induction false} LookupAppend(a: seq<(string, string)>, b: seq<(string, string)>, key: string)
    ensures Lookup(a + b, key) == if Lookup(a, key).Some? then Lookup(a, key) else Lookup(b, key)
  {
    if a != [] {
      assert (a + b)[1..] == a[1..] + b;
      LookupAppend(a[1..], b, key);
    } else {
      assert a + b == b;
    }
  }

  /** `handleSearch`: back to page 1, and `search` set to the term, or removed when the
      term is empty; every other parameter kept. */
  function SearchQuery(query: map<string, string>, term: string): (r: map<string, string>)
    ensures "page" in r && r["page"] == "1"
    ensures "search" in r <==> term != ""
    ensures "search" in r ==> r["search"] == term
    ensures forall k :: k != "page" && k != "search" ==> (k in r <==> k in query)
    ensures forall k :: k in r && k != "page" && k != "search" ==> r[k] == query[k]
  {
    var q := query["page" := "1"];
    if term != "" then q["search" := term] else q - {"search"}
  }

  /** A search always brings the list back to its first page. */
  lemma SearchRestartsAtFirstPage(query: map<string, string>, term: string)
    ensures PageParamReadable(SearchQuery(query, term))
    ensures CurrentPage(SearchQuery(query, term)) == 1
  {
    assert Decimal.IntToString(1) == "1";
  }

  /** The body of a list reply: `data.<rows>` (absent rows read as an empty list; absent
      `data` makes the handler throw) and `pagination.total`. */
  datatype ListData<T> = ListData(rows: Option<seq<T>>)
  datatype ListBody<T> = ListBody(data: Option<ListData<T>>, total: Option<int>)

  /** The rows and page count a list fetch takes in, or None when the handler throws
      (the request failed, or the body has no `data`) and the previous list stays. */
  function Received<T>(reply: Http.Reply<ListBody<T>>): (r: Option<(seq<T>, int)>)
    ensures r.None? <==> reply.Err? || reply.body.data.None?
    ensures r.Some? ==> r.value.0 == reply.body.data.value.rows.GetOr([])
    ensures r.Some? ==> (r.value.1 - 1) * PerPage < reply.body.total.GetOr(0) <= r.value.1 * PerPage
  {
    if reply.Err? || reply.body.data.None? then None
    else Some((reply.body.data.value.rows.GetOr([]), TotalPages(reply.body.total)))
  }
}
