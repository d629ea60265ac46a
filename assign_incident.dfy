/**
 * The supervisor's "Assign Incidents" page: the validated, unassigned cases
 * in triage order (Physical Abuse first, Neglect last, newest first within
 * a tier), a name search, assignment to an officer, soft removal, and the
 * page controls.
 */
module AssignIncident {
  import opened Js
  import opened CaseStatus
  import StableSort
  import Paging
  import Firestore

  /** The part of a case document the page reads. */
  datatype Client = Client(id: string, createdAt: int, status: string, name: string,
                           incidenttype: string, age: string, address: string)

  const PhysicalAbuse := "Physical Abuse"
  const Neglect := "Neglect"

  // ---------------------------------------------------------------------
  // Triage order

  /** The comparator of `sortClientsByDate`, test for test. */
  function Compare(a: Client, b: Client): int
  {
    if a.incidenttype == PhysicalAbuse && b.incidenttype != PhysicalAbuse then -1
    else if b.incidenttype == PhysicalAbuse && a.incidenttype != PhysicalAbuse then 1
    else if a.incidenttype == Neglect && b.incidenttype != Neglect then 1
    else if b.incidenttype == Neglect && a.incidenttype != Neglect then -1
    else b.createdAt - a.createdAt
  }

  /** Physical Abuse, then every other type, then Neglect. */
  function Tier(c: Client): (t: int)
    ensures 0 <= t <= 2
    ensures t == 0 <==> c.incidenttype == PhysicalAbuse
    ensures t == 2 <==> c.incidenttype == Neglect
  {
    if c.incidenttype == PhysicalAbuse then 0
    else if c.incidenttype == Neglect then 2
    else 1
  }

  /** The key the comparator orders by: the tier, then the creation time, newest first. */
  function Key(c: Client): (int, int)
  {
    (Tier(c), -c.createdAt)
  }

  /** The comparator is the lexicographic order of the keys, so it is a consistent total preorder. */
  lemma CompareIsKeyOrder(a: Client, b: Client)
    ensures Compare(a, b) < 0 <==> StableSort.KeyLeq(Key(a), Key(b)) && Key(a) != Key(b)
    ensures Compare(a, b) == 0 <==> Key(a) == Key(b)
    ensures Compare(a, b) == -Compare(b, a)
  {
    assert PhysicalAbuse != Neglect;
  }

  /** `[...clients].sort(compare)`; the sort is stable, so equal keys keep the query order. */
  function SortClients(l: seq<Client>): (r: seq<Client>)
    ensures |r| == |l| && multiset(r) == multiset(l)
  {
    StableSort.Sort(l, Key)
  }

  /** In the sorted list a Physical Abuse case never follows another type, and Neglect never precedes one. */
  lemma TriageOrder(l: seq<Client>, i: int, j: int)
    requires 0 <= i < j < |l|
    ensures var r := SortClients(l);
      && (r[j].incidenttype == PhysicalAbuse ==> r[i].incidenttype == PhysicalAbuse)
      && (r[i].incidenttype == Neglect ==> r[j].incidenttype == Neglect)
      && (Tier(r[i]) == Tier(r[j]) ==> r[i].createdAt >= r[j].createdAt)
  {
    StableSort.SortSorted(l, Key);
    assert StableSort.KeyLeq(Key(SortClients(l)[i]), Key(SortClients(l)[j]));
  }

  /** A list already in triage order is left as it is. */
  lemma SortKeepsTriaged(l: seq<Client>)
    requires StableSort.SortedBy(l, Key)
    ensures SortClients(l) == l
  {
    StableSort.SortOfSorted(l, Key);
  }

  // ---------------------------------------------------------------------
  // Search

  function NameMatches(term: string): Client -> bool
  {
    (c: Client) => ContainsIgnoringCase(c.name, term)
  }

  /** `handleSearch`: the clients whose name contains the term, ignoring case, in list order. */
  function Search(clients: seq<Client>, term: string): (r: seq<Client>)
    ensures |r| <= |clients|
    ensures forall k :: 0 <= k < |r| ==> ContainsIgnoringCase(r[k].name, term)
  {
    Filter(clients, NameMatches(term))
  }

  /** A result is exactly a client whose name matches. */
  lemma SearchMembers(clients: seq<Client>, term: string)
    ensures forall k :: 0 <= k < |Search(clients, term)| ==> Search(clients, term)[k] in clients
    ensures forall k :: 0 <= k < |clients| && ContainsIgnoringCase(clients[k].name, term) ==>
      clients[k] in Search(clients, term)
    ensures IsSubsequence(Search(clients, term), clients)
  {
    FilterMembers(clients, NameMatches(term));
  }

  /** The empty search shows every client. */
  lemma EmptySearchShowsAll(clients: seq<Client>)
    ensures Search(clients, "") == clients
  {
    forall k | 0 <= k < |clients| ensures NameMatches("")(clients[k]) {
      ContainsEmptyTerm(clients[k].name);
    }
    FilterAll(clients, NameMatches(""));
  }

  function OtherThan(id: string): Client -> bool
  {
    (c: Client) => c.id != id
  }

  /** Drops the client with this id, as both lists do after an assignment or removal. */
  function Without(l: seq<Client>, id: string): (r: seq<Client>)
    ensures forall k :: 0 <= k < |r| ==> r[k].id != id
  {
    Filter(l, OtherThan(id))
  }

  /** Dropping a client from the full list and from the search result keep the two consistent. */
  lemma WithoutCommutesWithSearch(clients: seq<Client>, term: string, id: string)
    ensures Without(Search(clients, term), id) == Search(Without(clients, id), term)
  {
    FilterCommute(clients, NameMatches(term), OtherThan(id));
  }

  const PageSizes: seq<nat> := [5, 10, 15, 20]

  class AssignPage {
    var clients: seq<Client>
    var filteredClients: seq<Client>
    var assigningClient: Option<string>
    var selectedTeamMember: string
    var teamMembers: seq<string>
    var searchTerm: string
    var currentPage: int
    var itemsPerPage: nat
    /** The page-wide error; while it is set the page shows only the message. */
    var error: string
    /** The last toast shown, if any. */
    var toast: Option<string>
    /** The `users` collection. */
    var store: Firestore.Collection

    /** The shown list is the search over the full list. */
    ghost predicate Consistent()
      reads this`clients, this`filteredClients, this`searchTerm
    {
      filteredClients == Search(clients, searchTerm)
    }

    constructor (store: Firestore.Collection)
      ensures clients == [] && filteredClients == [] && Consistent()
      ensures assigningClient == None && selectedTeamMember == "" && teamMembers == []
      ensures searchTerm == "" && currentPage == 1 && itemsPerPage == 10
      ensures error == "" && toast == None && this.store == store
    {
      clients, filteredClients := [], [];
      assigningClient, selectedTeamMember, teamMembers := None, "", [];
      searchTerm, currentPage, itemsPerPage := "", 1, 10;
      error, toast := "", None;
      this.store := store;
      EmptySearchShowsAll([]);
    }

    /** `totalPages`. */
    function TotalPages(): (t: nat)
      reads this`filteredClients, this`itemsPerPage
      requires itemsPerPage > 0
      ensures t * itemsPerPage >= |filteredClients|
    {
      Paging.TotalPages(|filteredClients|, itemsPerPage)
    }

    /** `displayedClients`. */
    function Displayed(): (r: seq<Client>)
      reads this`filteredClients, this`itemsPerPage, this`currentPage
      ensures |r| <= itemsPerPage
    {
      Paging.PageSlice(filteredClients, currentPage, itemsPerPage)
    }

    /**
     * `fetchClients` and `fetchTeamMembers`: the unassigned cases in triage
     * order (None when the query fails, which sets the page error) and the
     * officers' e-mail addresses.
     */
    method Fetch(cases: Option<seq<Client>>, officers: Option<seq<string>>)
      modifies this`clients, this`filteredClients, this`teamMembers, this`error
      ensures cases.Some? ==> clients == SortClients(cases.value) && filteredClients == clients
      ensures cases.None? ==> clients == old(clients) && filteredClients == old(filteredClients)
      ensures officers.Some? ==> teamMembers == officers.value
      ensures officers.None? ==> teamMembers == old(teamMembers)
      ensures error == if officers.None? then "Failed to fetch team members."
                       else if cases.None? then "Failed to fetch clients."
                       else old(error)
      ensures searchTerm == "" && cases.Some? ==> Consistent()
    {
      if cases.Some? {
        var sorted := SortClients(cases.value);
        clients, filteredClients := sorted, sorted;
        EmptySearchShowsAll(sorted);
      } else {
        error := "Failed to fetch clients.";
      }
      if officers.Some? {
        teamMembers := officers.value;
      } else {
        error := "Failed to fetch team members.";
      }
    }

    /** `handleSearch`: the page is not reset. */
    method SearchFor(term: string)
      modifies this`searchTerm, this`filteredClients
      ensures searchTerm == term && filteredClients == Search(clients, term)
      ensures Consistent()
    {
      searchTerm := term;
      filteredClients := Search(clients, term);
    }

    /** `handleAssignClick`: opens the officer picker on one row, with nobody selected. */
    method AssignClick(clientId: string)
      modifies this`assigningClient, this`selectedTeamMember
      ensures assigningClient == Some(clientId) && selectedTeamMember == ""
    {
      assigningClient := Some(clientId);
      selectedTeamMember := "";
    }

    /** The picker's `onChange`. */
    method SelectTeamMember(member: string)
      modifies this`selectedTeamMember
      ensures selectedTeamMember == member
    {
      selectedTeamMember := member;
    }

    /** `handleCancelAssign`. */
    method CancelAssign()
      modifies this`assigningClient, this`selectedTeamMember
      ensures assigningClient == None && selectedTeamMember == ""
    {
      assigningClient := None;
      selectedTeamMember := "";
    }

    /**
     * `handleSaveAssign`: with no officer selected, a toast and nothing
     * else; otherwise the case gets the officer and status "assigned", and
     * only if that write succeeds does it leave both lists.
     */
    method SaveAssign(clientId: string, fail: bool)
      modifies this`clients, this`filteredClients, this`assigningClient, this`toast, this`store
      ensures old(Consistent()) ==> Consistent()
      ensures var w := Firestore.UpdateDoc(old(store), clientId,
                                           map["assigned" := selectedTeamMember, "status" := Assigned], fail);
        if selectedTeamMember == "" then
          && toast == Some("Please select a team member before assigning.")
          && store == old(store) && clients == old(clients) && filteredClients == old(filteredClients)
          && assigningClient == old(assigningClient)
        else if w.None? then
          && toast == Some("Failed to assign client.")
          && store == old(store) && clients == old(clients) && filteredClients == old(filteredClients)
          && assigningClient == old(assigningClient)
        else
          && store == w.value && toast == old(toast) && assigningClient == None
          && clients == Without(old(clients), clientId)
          && filteredClients == Without(old(filteredClients), clientId)
    {
      if selectedTeamMember == "" {
        toast := Some("Please select a team member before assigning.");
        return;
      }
      var w := Firestore.UpdateDoc(store, clientId, map["assigned" := selectedTeamMember, "status" := Assigned], fail);
      if w.None? {
        toast := Some("Failed to assign client.");
        return;
      }
      store := w.value;
      WithoutCommutesWithSearch(clients, searchTerm, clientId);
      clients := Without(clients, clientId);
      filteredClients := Without(filteredClients, clientId);
      assigningClient := None;
    }

    /**
     * `handleRemove`: the case's status becomes "removed"; only if that
     * write succeeds does it leave both lists.  A failure sets the page
     * error.
     */
    method Remove(clientId: string, fail: bool)
      modifies this`clients, this`filteredClients, this`error, this`store
      ensures old(Consistent()) ==> Consistent()
      ensures var w := Firestore.UpdateDoc(old(store), clientId, map["status" := Removed], fail);
        if w.None? then
          && error == "Failed to remove client." && store == old(store) && clients == old(clients)
          && filteredClients == old(filteredClients)
        else
          && store == w.value && error == old(error)
          && clients == Without(old(clients), clientId)
          && filteredClients == Without(old(filteredClients), clientId)
    {
      var w := Firestore.UpdateDoc(store, clientId, map["status" := Removed], fail);
      if w.None? {
        error := "Failed to remove client.";
        return;
      }
      store := w.value;
      WithoutCommutesWithSearch(clients, searchTerm, clientId);
      clients := Without(clients, clientId);
      filteredClients := Without(filteredClients, clientId);
    }

    /** The page-size picker: one of the offered sizes, back to page 1. */
    method SetItemsPerPage(n: nat)
      requires n in PageSizes
      modifies this`itemsPerPage, this`currentPage
      ensures itemsPerPage == n && itemsPerPage > 0 && currentPage == 1
    {
      itemsPerPage := n;
      currentPage := 1;
    }

    /** Prev. */
    method PrevPage()
      modifies this`currentPage
      ensures currentPage == Paging.Prev(old(currentPage)) && currentPage >= 1
    {
      currentPage := Paging.Prev(currentPage);
    }

    /** Next, `Math.min(prev + 1, totalPages)`: never past the last page, but page 0 on an empty list. */
    method NextPage()
      requires itemsPerPage > 0
      modifies this`currentPage
      ensures currentPage == Paging.NextAsWritten(old(currentPage), TotalPages())
      ensures currentPage <= TotalPages()
      ensures old(currentPage) >= 1 && TotalPages() == 0 ==> currentPage == 0
    {
      currentPage := Paging.NextAsWritten(currentPage, TotalPages());
    }
  }
}
