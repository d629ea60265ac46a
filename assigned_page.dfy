/**
 * The supervisor's "Assigned Incidents" list: the assigned cases filtered
 * by a name search and an incident type, paged.  The page's state is only
 * ever replaced, so it is modelled as a value with one function per handler.
 */
module AssignedPage {
  import opened Js
  import Paging

  /** The part of a case document the list reads. */
  datatype Client = Client(id: string, assignee: string, name: string, incidenttype: string, age: string, address: string)

  const PageSizes: seq<nat> := [5, 10, 15, 20]

  // ---------------------------------------------------------------------
  // The query

  /** The query's three equality conditions on `type` and `status`. */
  predicate QueryMatches(kind: string, status: string, userEmail: string)
  {
    kind == "client" && kind == userEmail && status == "assigned"
  }

  /** Both conditions on `type` must hold, so a document matches only when the signed-in email is "client". */
  lemma QueryNeedsClientEmail(kind: string, status: string, userEmail: string)
    ensures QueryMatches(kind, status, userEmail) ==> userEmail == "client"
    ensures userEmail != "client" ==> !QueryMatches(kind, status, userEmail)
  {
  }

  // ---------------------------------------------------------------------
  // The filter

  function NameMatches(q: string): Client -> bool
  {
    (c: Client) => ContainsIgnoringCase(c.name, q)
  }

  function TypeIs(incident: string): Client -> bool
  {
    (c: Client) => incident == "" || c.incidenttype == incident
  }

  function Matches(q: string, incident: string): Client -> bool
  {
    (c: Client) => ContainsIgnoringCase(c.name, q) && (incident == "" || c.incidenttype == incident)
  }

  /** The filter effect: name contains the search, ignoring case, and the type is the chosen one unless none is chosen. */
  function View(clients: seq<Client>, q: string, incident: string): (r: seq<Client>)
    ensures |r| <= |clients|
    ensures forall k :: 0 <= k < |r| ==> ContainsIgnoringCase(r[k].name, q) && (incident == "" || r[k].incidenttype == incident)
  {
    Filter(clients, Matches(q, incident))
  }

  /** The view keeps, in order, exactly the clients passing both conditions. */
  lemma ViewMembers(clients: seq<Client>, q: string, incident: string)
    ensures forall k :: 0 <= k < |clients| && Matches(q, incident)(clients[k]) ==> clients[k] in View(clients, q, incident)
    ensures IsSubsequence(View(clients, q, incident), clients)
  {
    FilterMembers(clients, Matches(q, incident));
  }

  /** The two conditions act as two filters, one after the other. */
  lemma ViewIsTwoFilters(clients: seq<Client>, q: string, incident: string)
    ensures View(clients, q, incident) == Filter(Filter(clients, NameMatches(q)), TypeIs(incident))
    decreases |clients|
  {
    if clients != [] {
      ViewIsTwoFilters(clients[1..], q, incident);
      var c := clients[0];
      if NameMatches(q)(c) {
        assert Filter(clients, NameMatches(q)) == [c] + Filter(clients[1..], NameMatches(q));
        assert ([c] + Filter(clients[1..], NameMatches(q)))[1..] == Filter(clients[1..], NameMatches(q));
      }
    }
  }

  /** With no search and no incident chosen, every client is listed. */
  lemma EmptyFiltersShowAll(clients: seq<Client>)
    ensures View(clients, "", "") == clients
  {
    forall k | 0 <= k < |clients| ensures Matches("", "")(clients[k]) {
      ContainsEmptyTerm(clients[k].name);
    }
    FilterAll(clients, Matches("", ""));
  }

  // ---------------------------------------------------------------------
  // The page state

  datatype State = State(clients: seq<Client>, filtered: seq<Client>, searchQuery: string,
                         incidentFilter: string, currentPage: int, itemsPerPage: nat, error: string)

  /** The shown list is the filter of the fetched one, and the page size is an offered one. */
  predicate Consistent(st: State)
  {
    st.filtered == View(st.clients, st.searchQuery, st.incidentFilter) && st.itemsPerPage in PageSizes
  }

  function Initial(): (st: State)
    ensures Consistent(st) && st.clients == [] && st.currentPage == 1 && st.itemsPerPage == 10
  {
    State([], [], "", "", 1, 10, "")
  }

  /** A change of the fetched list, the search or the filter re-runs the filter and goes back to page 1. */
  function Refilter(st: State): (r: State)
    ensures Consistent(r) <==> st.itemsPerPage in PageSizes
    ensures r == st.(filtered := View(st.clients, st.searchQuery, st.incidentFilter), currentPage := 1)
  {
    st.(filtered := View(st.clients, st.searchQuery, st.incidentFilter), currentPage := 1)
  }

  /** `fetchAssignedClients`; None is a failed read, which sets the error. */
  function Fetch(st: State, data: Option<seq<Client>>): (r: State)
    ensures Consistent(st) ==> Consistent(r)
    ensures data.None? ==> r == st.(error := "Failed to fetch assigned clients.")
    ensures data.Some? ==> r.clients == data.value && r.currentPage == 1
    ensures data.Some? ==> r.filtered == View(data.value, st.searchQuery, st.incidentFilter)
  {
    if data.None? then st.(error := "Failed to fetch assigned clients.")
    else Refilter(st.(clients := data.value, filtered := data.value))
  }

  function SetSearch(st: State, q: string): (r: State)
    ensures Consistent(st) ==> Consistent(r)
    ensures r.searchQuery == q && r.currentPage == 1 && r.clients == st.clients
  {
    Refilter(st.(searchQuery := q))
  }

  function SetIncident(st: State, incident: string): (r: State)
    ensures Consistent(st) ==> Consistent(r)
    ensures r.incidentFilter == incident && r.currentPage == 1 && r.clients == st.clients
  {
    Refilter(st.(incidentFilter := incident))
  }

  /** The page-size picker: back to page 1. */
  function SetItemsPerPage(st: State, n: nat): (r: State)
    requires n in PageSizes
    ensures Consistent(st) ==> Consistent(r)
    ensures r.itemsPerPage == n && r.currentPage == 1 && r.filtered == st.filtered
  {
    st.(itemsPerPage := n, currentPage := 1)
  }

  /** The rows on the current page. */
  function Displayed(st: State): (r: seq<Client>)
    ensures |r| <= st.itemsPerPage
  {
    Paging.PageSlice(st.filtered, st.currentPage, st.itemsPerPage)
  }

  function TotalPages(st: State): (t: nat)
    requires st.itemsPerPage > 0
    ensures t * st.itemsPerPage >= |st.filtered| && (t == 0 <==> st.filtered == [])
  {
    Paging.TotalPages(|st.filtered|, st.itemsPerPage)
  }

  function Prev(st: State): (r: State)
    ensures r.currentPage >= 1 && r == st.(currentPage := Paging.Prev(st.currentPage))
  {
    st.(currentPage := Paging.Prev(st.currentPage))
  }

  /** Next, `Math.min(prev + 1, totalPages)`: never past the last page, but page 0 on an empty list. */
  function Next(st: State): (r: State)
    requires Consistent(st)
    ensures r.currentPage <= TotalPages(st)
    ensures st.currentPage >= 1 && TotalPages(st) == 0 ==> r.currentPage == 0
    ensures r == st.(currentPage := Paging.NextAsWritten(st.currentPage, TotalPages(st)))
  {
    st.(currentPage := Paging.NextAsWritten(st.currentPage, TotalPages(st)))
  }
}
