/**
 * The barangay (village) officer's review page: the cases in "review" for
 * the officer's address, mapped to display records with defaults, ordered
 * by incident type, searchable, and either deleted or validated (moved on
 * to "unassigned").
 */
module Barangay {
  import opened Js
  import opened CaseStatus
  import StableSort
  import Firestore

  /** A case document as the query returns it; any part may be missing. */
  datatype ReviewDoc = ReviewDoc(formData: Option<Firestore.Fields>, createdAt: Option<int>,
                                 fileUploads: Option<seq<string>>)

  /** The display record. */
  datatype Client = Client(id: string, name: string, address: string, age: string, sex: string,
                           incidenttype: string, createdAt: int, fileUploads: seq<string>)

  const NA := "N/A"

  /** `data.formData?.<key> || "N/A"`: a missing record, a missing field and "" all fall back. */
  function FieldOrNA(f: Option<Firestore.Fields>, key: string): (v: string)
    ensures v != ""
    ensures f.Some? && key in f.value && f.value[key] != "" ==> v == f.value[key]
    ensures f.None? || key !in f.value || f.value[key] == "" ==> v == NA
  {
    if f.Some? && key in f.value && f.value[key] != "" then f.value[key] else NA
  }

  /** The mapping of one fetched document. */
  function ToClient(id: string, d: ReviewDoc): Client
  {
    Client(id,
           FieldOrNA(d.formData, "name"), FieldOrNA(d.formData, "address"),
           FieldOrNA(d.formData, "age"), FieldOrNA(d.formData, "sex"),
           FieldOrNA(d.formData, "incidenttype"),
           if d.createdAt.Some? then d.createdAt.value else 0,
           if d.fileUploads.Some? then d.fileUploads.value else [])
  }

  /** Missing intake fields show "N/A", a missing creation time is 0 and missing uploads are []. */
  lemma MappingDefaults(id: string, d: ReviewDoc)
    ensures d.formData.None? ==> var c := ToClient(id, d);
      c.name == NA && c.address == NA && c.age == NA && c.sex == NA && c.incidenttype == NA
    ensures d.createdAt.None? ==> ToClient(id, d).createdAt == 0
    ensures d.fileUploads.None? ==> ToClient(id, d).fileUploads == []
    ensures d.fileUploads.Some? ==> ToClient(id, d).fileUploads == d.fileUploads.value
    ensures ToClient(id, d).id == id
  {
  }

  // ---------------------------------------------------------------------
  // Incident order

  const IncidentOrder: seq<string> := ["Physical Abuse", "Rape", "Neglect"]

  /** `incidentOrder.indexOf(type)`. */
  function Rank(c: Client): (r: int)
    ensures -1 <= r <= 2
    ensures r == -1 <==> c.incidenttype !in IncidentOrder
    ensures r >= 0 ==> IncidentOrder[r] == c.incidenttype
  {
    IndexIn(IncidentOrder, c.incidenttype)
  }

  function Key(c: Client): (int, int)
  {
    (Rank(c), 0)
  }

  /** The comparator `rank(a) - rank(b)`: negative, zero or positive exactly as the keys compare. */
  lemma ComparatorIsKeyOrder(a: Client, b: Client)
    ensures Rank(a) - Rank(b) <= 0 <==> StableSort.KeyLeq(Key(a), Key(b))
  {
  }

  /** The fetched list after `sort`. */
  function SortByIncident(l: seq<Client>): (r: seq<Client>)
    ensures |r| == |l| && multiset(r) == multiset(l)
  {
    StableSort.Sort(l, Key)
  }

  /**
   * The order of the result: a type outside the list ranks -1 and so comes
   * before Physical Abuse; then Physical Abuse, Rape, Neglect.
   */
  lemma IncidentOrderHolds(l: seq<Client>, i: int, j: int)
    requires 0 <= i < j < |l|
    ensures var r := SortByIncident(l);
      && Rank(r[i]) <= Rank(r[j])
      && (r[j].incidenttype !in IncidentOrder ==> r[i].incidenttype !in IncidentOrder)
      && (r[i].incidenttype == "Neglect" ==> r[j].incidenttype == "Neglect")
  {
    StableSort.SortSorted(l, Key);
    assert StableSort.KeyLeq(Key(SortByIncident(l)[i]), Key(SortByIncident(l)[j]));
  }

  /** An unlisted type, such as the "N/A" of a missing field, sorts ahead of Physical Abuse. */
  lemma UnlistedBeforePhysicalAbuse(other: Client, abuse: Client)
    requires other.incidenttype !in IncidentOrder && abuse.incidenttype == "Physical Abuse"
    ensures Rank(other) - Rank(abuse) < 0
  {
  }

  // ---------------------------------------------------------------------
  // Search

  predicate Matches(c: Client, value: string)
  {
    ContainsIgnoringCase(c.name, value) || ContainsIgnoringCase(c.address, value) ||
    ContainsIgnoringCase(c.incidenttype, value)
  }

  function MatchesTerm(value: string): Client -> bool
  {
    (c: Client) => Matches(c, value)
  }

  /** `handleSearch`: the clients whose name, address or incident type contains the term, ignoring case. */
  function Search(clients: seq<Client>, value: string): (r: seq<Client>)
    ensures forall k :: 0 <= k < |r| ==> Matches(r[k], value)
  {
    Filter(clients, MatchesTerm(value))
  }

  /** The search keeps, in order, exactly the matching clients. */
  lemma SearchMembers(clients: seq<Client>, value: string)
    ensures forall k :: 0 <= k < |clients| && Matches(clients[k], value) ==> clients[k] in Search(clients, value)
    ensures IsSubsequence(Search(clients, value), clients)
  {
    FilterMembers(clients, MatchesTerm(value));
  }

  lemma EmptySearchShowsAll(clients: seq<Client>)
    ensures Search(clients, "") == clients
  {
    forall k | 0 <= k < |clients| ensures MatchesTerm("")(clients[k]) {
      ContainsEmptyTerm(clients[k].name);
    }
    FilterAll(clients, MatchesTerm(""));
  }

  /** Lowercasing is idempotent, so searching with the stored lowercased term gives the same list. */
  lemma ToLowerIdempotent(s: string)
    ensures ToLower(ToLower(s)) == ToLower(s)
  {
  }

  function OtherThan(id: string): Client -> bool
  {
    (c: Client) => c.id != id
  }

  function Without(l: seq<Client>, id: string): (r: seq<Client>)
    ensures forall k :: 0 <= k < |r| ==> r[k].id != id
  {
    Filter(l, OtherThan(id))
  }

  /** Only the client with that id leaves the list; the others keep their order. */
  lemma WithoutKeepsOthers(l: seq<Client>, id: string)
    ensures forall k :: 0 <= k < |l| && l[k].id != id ==> l[k] in Without(l, id)
    ensures IsSubsequence(Without(l, id), l)
  {
    FilterMembers(l, OtherThan(id));
  }

  lemma WithoutCommutesWithSearch(clients: seq<Client>, value: string, id: string)
    ensures Without(Search(clients, value), id) == Search(Without(clients, id), value)
  {
    FilterCommute(clients, MatchesTerm(value), OtherThan(id));
  }

  function MapAll(docs: seq<(string, ReviewDoc)>): (r: seq<Client>)
    ensures |r| == |docs|
    ensures forall k :: 0 <= k < |docs| ==> r[k] == ToClient(docs[k].0, docs[k].1)
  {
    seq(|docs|, k requires 0 <= k < |docs| => ToClient(docs[k].0, docs[k].1))
  }

  class ReviewPage {
    var clients: seq<Client>
    var filteredClients: seq<Client>
    var search: string
    var loading: bool
    var operationLoading: bool
    var error: Option<string>
    var showDeleteModal: bool
    var showViewModal: bool
    var clientToDelete: Option<Client>
    var clientToView: Option<Client>
    /** The `users` collection. */
    var store: Firestore.Collection

    ghost predicate Consistent()
      reads this`clients, this`filteredClients, this`search
    {
      filteredClients == Search(clients, search)
    }

    constructor (store: Firestore.Collection)
      ensures clients == [] && filteredClients == [] && search == "" && Consistent()
      ensures loading && !operationLoading && error == None
      ensures !showDeleteModal && !showViewModal && clientToDelete == None && clientToView == None
      ensures this.store == store
    {
      clients, filteredClients, search := [], [], "";
      loading, operationLoading, error := true, false, None;
      showDeleteModal, showViewModal, clientToDelete, clientToView := false, false, None, None;
      this.store := store;
      EmptySearchShowsAll([]);
    }

    /** `fetchClients`: the mapped, sorted review cases, or the fetch error. */
    method Fetch(docs: Option<seq<(string, ReviewDoc)>>)
      modifies this`clients, this`filteredClients, this`error, this`loading
      ensures !loading
      ensures docs.Some? ==> clients == SortByIncident(MapAll(docs.value)) && filteredClients == clients && error == None
      ensures docs.None? ==> clients == old(clients) && filteredClients == old(filteredClients)
                             && error == Some("Failed to fetch clients")
      ensures docs.Some? && search == "" ==> Consistent()
    {
      if docs.Some? {
        var sorted := SortByIncident(MapAll(docs.value));
        clients, filteredClients, error := sorted, sorted, None;
        EmptySearchShowsAll(sorted);
      } else {
        error := Some("Failed to fetch clients");
      }
      loading := false;
    }

    /** `handleSearch`: stores the lowercased term and filters the full list by it. */
    method SearchFor(term: string)
      modifies this`search, this`filteredClients
      ensures search == ToLower(term) && filteredClients == Search(clients, ToLower(term))
      ensures Consistent()
    {
      search := ToLower(term);
      filteredClients := Search(clients, search);
    }

    /** The row's Delete button. */
    method AskDelete(c: Client)
      modifies this`clientToDelete, this`showDeleteModal
      ensures clientToDelete == Some(c) && showDeleteModal
    {
      clientToDelete := Some(c);
      showDeleteModal := true;
    }

    /** The row's View button. */
    method View(c: Client)
      modifies this`clientToView, this`showViewModal
      ensures clientToView == Some(c) && showViewModal
    {
      clientToView := Some(c);
      showViewModal := true;
    }

    /**
     * `handleDelete`: without a selected client nothing happens.  Otherwise
     * the document is deleted; on success the client leaves both lists and
     * the modal closes, on failure only the error is set.
     */
    method Delete(fail: bool)
      modifies this`clients, this`filteredClients, this`error, this`showDeleteModal, this`operationLoading, this`store
      ensures old(Consistent()) ==> Consistent()
      ensures clientToDelete.None? ==>
        && clients == old(clients) && filteredClients == old(filteredClients) && error == old(error)
        && showDeleteModal == old(showDeleteModal) && operationLoading == old(operationLoading) && store == old(store)
      ensures clientToDelete.Some? ==> !operationLoading
      ensures clientToDelete.Some? && fail ==>
        && clients == old(clients) && filteredClients == old(filteredClients)
        && error == Some("Failed to delete client") && showDeleteModal == old(showDeleteModal) && store == old(store)
      ensures clientToDelete.Some? && !fail ==>
        && clients == Without(old(clients), clientToDelete.value.id)
        && filteredClients == Without(old(filteredClients), clientToDelete.value.id)
        && store == Firestore.DeleteDoc(old(store), clientToDelete.value.id, false).value
        && error == old(error) && !showDeleteModal
    {
      if clientToDelete.None? {
        return;
      }
      var id := clientToDelete.value.id;
      operationLoading := true;
      var w := Firestore.DeleteDoc(store, id, fail);
      if w.Some? {
        store := w.value;
        WithoutCommutesWithSearch(clients, search, id);
        clients := Without(clients, id);
        filteredClients := Without(filteredClients, id);
        showDeleteModal := false;
      } else {
        error := Some("Failed to delete client");
      }
      operationLoading := false;
    }

    /**
     * `handleValidated`: without a viewed client nothing happens.  Otherwise
     * the case's status becomes "unassigned"; on success the client leaves
     * both lists and the modal closes, on failure only the error is set.
     */
    method Validate(fail: bool)
      modifies this`clients, this`filteredClients, this`error, this`showViewModal, this`operationLoading, this`store
      ensures old(Consistent()) ==> Consistent()
      ensures clientToView.None? ==>
        && clients == old(clients) && filteredClients == old(filteredClients) && error == old(error)
        && showViewModal == old(showViewModal) && operationLoading == old(operationLoading) && store == old(store)
      ensures clientToView.Some? ==> !operationLoading
      ensures clientToView.Some? ==>
        var w := Firestore.UpdateDoc(old(store), clientToView.value.id, map["status" := Unassigned], fail);
        if w.None? then
          && clients == old(clients) && filteredClients == old(filteredClients)
          && error == Some("Failed to validate client") && showViewModal == old(showViewModal) && store == old(store)
        else
          && clients == Without(old(clients), clientToView.value.id)
          && filteredClients == Without(old(filteredClients), clientToView.value.id)
          && store == w.value && error == old(error) && !showViewModal
    {
      if clientToView.None? {
        return;
      }
      var id := clientToView.value.id;
      operationLoading := true;
      var w := Firestore.UpdateDoc(store, id, map["status" := Unassigned], fail);
      if w.Some? {
        store := w.value;
        WithoutCommutesWithSearch(clients, search, id);
        clients := Without(clients, id);
        filteredClients := Without(filteredClients, id);
        showViewModal := false;
      } else {
        error := Some("Failed to validate client");
      }
      operationLoading := false;
    }
  }

  /** Validation is the pipeline's first step. */
  lemma ValidationIsFirstStep()
    ensures Step(IsReview, IsUnassigned)
    ensures Parse(Unassigned) == Some(IsUnassigned)
  {
  }
}
