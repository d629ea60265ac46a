/**
 * The supervisor's "Case Profiling" page: every client case, searchable by
 * name or incident type, shown five to a page in triage order, with the
 * print-report choice and the column widths of the spreadsheet export.
 */
module CaseProfiling {
  import opened Js
  import opened CaseStatus
  import StableSort
  import Paging
  import Firestore
  import AssignIncident

  /** The part of a case document the page reads. */
  datatype Case = Case(id: string, assignee: string, createdAt: int, status: string, form: Firestore.Fields)

  function Name(c: Case): string { Firestore.Get(c.form, "name") }
  function IncidentType(c: Case): string { Firestore.Get(c.form, "incidenttype") }

  const CasesPerPage := 5

  // ---------------------------------------------------------------------
  // Search

  /** The search filter: the name or the incident type contains the term, ignoring case. */
  function Matches(term: string): Case -> bool
  {
    (c: Case) => ContainsIgnoringCase(Name(c), term) || ContainsIgnoringCase(IncidentType(c), term)
  }

  function Search(all: seq<Case>, term: string): (r: seq<Case>)
    ensures |r| <= |all|
    ensures forall k :: 0 <= k < |r| ==> ContainsIgnoringCase(Name(r[k]), term) || ContainsIgnoringCase(IncidentType(r[k]), term)
  {
    Filter(all, Matches(term))
  }

  /** The search keeps, in order, exactly the matching cases. */
  lemma SearchMembers(all: seq<Case>, term: string)
    ensures forall k :: 0 <= k < |all| && Matches(term)(all[k]) ==> all[k] in Search(all, term)
    ensures IsSubsequence(Search(all, term), all)
  {
    FilterMembers(all, Matches(term));
  }

  // ---------------------------------------------------------------------
  // Order

  /** The comparator of `paginateCases`, test for test, with its separate Physical Abuse branch. */
  function Compare(a: Case, b: Case): int
  {
    var s, t := IncidentType(a), IncidentType(b);
    if s == AssignIncident.PhysicalAbuse && t != AssignIncident.PhysicalAbuse then -1
    else if t == AssignIncident.PhysicalAbuse && s != AssignIncident.PhysicalAbuse then 1
    else if s == AssignIncident.Neglect && t != AssignIncident.Neglect then 1
    else if t == AssignIncident.Neglect && s != AssignIncident.Neglect then -1
    else if s == AssignIncident.PhysicalAbuse && t == AssignIncident.PhysicalAbuse then b.createdAt - a.createdAt
    else b.createdAt - a.createdAt
  }

  /** The case as the assignment page sees it. */
  function AsClient(c: Case): AssignIncident.Client
  {
    AssignIncident.Client(c.id, c.createdAt, c.status, Name(c), IncidentType(c),
                          Firestore.Get(c.form, "age"), Firestore.Get(c.form, "address"))
  }

  /** The comparator is the assignment page's triage comparator: the extra branch changes nothing. */
  lemma SameOrderAsAssignPage(a: Case, b: Case)
    ensures Compare(a, b) == AssignIncident.Compare(AsClient(a), AsClient(b))
  {
  }

  function Key(c: Case): (int, int)
  {
    AssignIncident.Key(AsClient(c))
  }

  /** The comparator orders by the triage key. */
  lemma CompareIsKeyOrder(a: Case, b: Case)
    ensures Compare(a, b) < 0 <==> StableSort.KeyLeq(Key(a), Key(b)) && Key(a) != Key(b)
    ensures Compare(a, b) == 0 <==> Key(a) == Key(b)
  {
    SameOrderAsAssignPage(a, b);
    AssignIncident.CompareIsKeyOrder(AsClient(a), AsClient(b));
  }

  /** `[...cases].sort(...)`: a sorted copy; the page's list itself is a value and is not reordered. */
  function SortCases(l: seq<Case>): (r: seq<Case>)
    ensures |r| == |l| && multiset(r) == multiset(l)
  {
    StableSort.Sort(l, Key)
  }

  /** In the sorted list Physical Abuse comes first, Neglect last, and the newest first within a tier. */
  lemma TriageOrder(l: seq<Case>, i: int, j: int)
    requires 0 <= i < j < |l|
    ensures var r := SortCases(l);
      && (IncidentType(r[j]) == AssignIncident.PhysicalAbuse ==> IncidentType(r[i]) == AssignIncident.PhysicalAbuse)
      && (IncidentType(r[i]) == AssignIncident.Neglect ==> IncidentType(r[j]) == AssignIncident.Neglect)
      && (AssignIncident.Tier(AsClient(r[i])) == AssignIncident.Tier(AsClient(r[j])) ==> r[i].createdAt >= r[j].createdAt)
  {
    StableSort.SortSorted(l, Key);
    assert StableSort.KeyLeq(Key(SortCases(l)[i]), Key(SortCases(l)[j]));
  }

  /** `paginateCases`: the current page of the sorted cases. */
  function PageOf(cases: seq<Case>, page: int): (r: seq<Case>)
    ensures |r| <= CasesPerPage
  {
    Paging.PageSlice(SortCases(cases), page, CasesPerPage)
  }

  /** Pages 1..ceil(n/5) of the sorted list show every case exactly once, in triage order. */
  lemma PagesShowEveryCase(cases: seq<Case>)
    ensures Paging.Pages(SortCases(cases), CasesPerPage, Paging.TotalPages(|cases|, CasesPerPage)) == SortCases(cases)
    ensures multiset(SortCases(cases)) == multiset(cases)
  {
    Paging.PagesPartition(SortCases(cases), CasesPerPage);
  }

  // ---------------------------------------------------------------------
  // Print

  datatype PrintModal = CompletedReport | InProgressReport

  /** `handlePrintReport`'s modal: the completed report exactly for a Completed case. */
  function PrintModalFor(status: string): (m: PrintModal)
    ensures m == CompletedReport <==> status == Completed
  {
    if status == Completed then CompletedReport else InProgressReport
  }

  // ---------------------------------------------------------------------
  // Spreadsheet column widths

  /** The export's columns, in the order each row lists them. */
  const ExcelColumns: seq<string> := [
    "Case ID", "Name", "Alias", "Age", "Incident Type", "Date", "Assigned", "Civil Status", "Contact",
    "Place of Birth", "Date of Birth", "Religion", "Disability", "Marks", "Address", "Permanent Address",
    "Educational Attainment", "School Attended", "School Address", "Sex"]

  const ColumnCount := 20

  /** One exported row, in column order; `date` is `toLocaleDateString` of the creation time. */
  function ExcelRow(c: Case, date: int -> string): (r: seq<string>)
    ensures |r| == ColumnCount
  {
    var f := c.form;
    [c.id, Firestore.Get(f, "name"), Firestore.Get(f, "alias"), Firestore.Get(f, "age"),
     Firestore.Get(f, "incidenttype"), date(c.createdAt), c.assignee, Firestore.Get(f, "civilStatus"),
     Firestore.Get(f, "contact"), Firestore.Get(f, "pbirth"), Firestore.Get(f, "dbirth"),
     Firestore.Get(f, "religion"), Firestore.Get(f, "disability"), Firestore.Get(f, "marks"),
     Firestore.Get(f, "address"), Firestore.Get(f, "paddress"), Firestore.Get(f, "edattainment"),
     Firestore.Get(f, "sattended"), Firestore.Get(f, "saddress"), Firestore.Get(f, "sex")]
  }

  function ExcelRows(cases: seq<Case>, date: int -> string): (rows: seq<seq<string>>)
    ensures |rows| == |cases| && forall i :: 0 <= i < |rows| ==> rows[i] == ExcelRow(cases[i], date)
  {
    seq(|cases|, i requires 0 <= i < |cases| => ExcelRow(cases[i], date))
  }

  /** `value ? String(value).length : 0`; an empty string is the only falsy string. */
  function CellLength(v: string): nat
  {
    if v == "" then 0 else |v|
  }

  function Max(a: int, b: int): int
  {
    if a < b then b else a
  }

  /** The longest cell of column j over the rows, 0 for no rows. */
  function Width(rows: seq<seq<string>>, j: nat): (w: nat)
    requires forall i :: 0 <= i < |rows| ==> j < |rows[i]|
  {
    if rows == [] then 0 else Max(Width(rows[..|rows| - 1], j), CellLength(rows[|rows| - 1][j]))
  }

  /** The width is the length of the longest cell of the column: no cell is longer, and some cell is that long. */
  lemma {:induction false} WidthIsLongestCell(rows: seq<seq<string>>, j: nat)
    requires forall i :: 0 <= i < |rows| ==> j < |rows[i]|
    ensures forall i :: 0 <= i < |rows| ==> CellLength(rows[i][j]) <= Width(rows, j)
    ensures rows != [] ==> exists i :: 0 <= i < |rows| && CellLength(rows[i][j]) == Width(rows, j)
    decreases |rows|
  {
    if rows != [] {
      var init := rows[..|rows| - 1];
      WidthIsLongestCell(init, j);
      forall i | 0 <= i < |rows| ensures CellLength(rows[i][j]) <= Width(rows, j) {
        if i < |init| { assert rows[i] == init[i]; }
      }
      if init != [] && Width(init, j) >= CellLength(rows[|rows| - 1][j]) {
        var i :| 0 <= i < |init| && CellLength(init[i][j]) == Width(init, j);
        assert rows[i] == init[i];
      }
    }
  }

  /**
   * The `reduce` in `generateExcel` followed by `+ 2`: for each row and each
   * of its columns in order, the accumulator keeps the longest cell seen.
   * The accumulator is keyed by column position; the twenty column names are
   * distinct, so it is the same dictionary.  With no rows the dictionary is
   * empty and there are no widths.
   */
  method ColumnWidths(rows: seq<seq<string>>) returns (widths: seq<int>)
    requires forall i :: 0 <= i < |rows| ==> |rows[i]| == ColumnCount
    ensures rows == [] ==> widths == []
    ensures rows != [] ==> |widths| == ColumnCount
    ensures rows != [] ==> forall j :: 0 <= j < ColumnCount ==> widths[j] == Width(rows, j) + 2
  {
    var acc: map<nat, int> := map[];
    var i := 0;
    while i < |rows|
      invariant 0 <= i <= |rows|
      invariant forall j :: j in acc ==> j < ColumnCount
      invariant forall j :: 0 <= j < ColumnCount ==> (j in acc <==> i > 0)
      invariant forall j :: 0 <= j < ColumnCount && j in acc ==> acc[j] == Width(rows[..i], j)
    {
      var row := rows[i];
      assert rows[..i + 1][..i] == rows[..i];
      var j := 0;
      while j < ColumnCount
        invariant 0 <= j <= ColumnCount
        invariant forall k :: k in acc ==> k < ColumnCount
        invariant forall k :: 0 <= k < j ==> k in acc && acc[k] == Width(rows[..i + 1], k)
        invariant forall k :: j <= k < ColumnCount ==> (k in acc <==> i > 0)
        invariant forall k :: j <= k < ColumnCount && k in acc ==> acc[k] == Width(rows[..i], k)
      {
        var current := CellLength(row[j]);
        var currentMax := if j in acc then acc[j] else 0;
        acc := acc[j := Max(currentMax, current)];
        j := j + 1;
      }
      i := i + 1;
    }
    assert rows[..i] == rows;
    if rows == [] {
      widths := [];
    } else {
      widths := seq(ColumnCount, j requires 0 <= j < ColumnCount => acc[j] + 2);
    }
  }

  // ---------------------------------------------------------------------
  // The page

  class ProfilingPage {
    var allCases: seq<Case>
    var cases: seq<Case>
    var search: string
    var currentPage: int
    var selectedCaseId: Option<string>
    var modalType: Option<PrintModal>

    /** The shown list is always the search over all cases. */
    ghost predicate Consistent()
      reads this`allCases, this`cases, this`search
    {
      cases == Search(allCases, search)
    }

    constructor ()
      ensures allCases == [] && cases == [] && search == "" && currentPage == 1
      ensures selectedCaseId == None && modalType == None
      ensures Consistent()
    {
      allCases, cases, search, currentPage := [], [], "", 1;
      selectedCaseId, modalType := None, None;
    }

    /**
     * `fetchCases` followed by the search effect it triggers: the fetched
     * cases, filtered by the current search, from page 1.  None is a
     * failed read, which changes nothing.
     */
    method Fetch(data: Option<seq<Case>>)
      modifies this`allCases, this`cases, this`currentPage
      ensures data.None? ==> allCases == old(allCases) && cases == old(cases) && currentPage == old(currentPage)
      ensures data.Some? ==> allCases == data.value && cases == Search(data.value, search) && currentPage == 1
      ensures old(Consistent()) ==> Consistent()
    {
      if data.Some? {
        allCases, cases := data.value, data.value;
        cases := Search(allCases, search);
        currentPage := 1;
      }
    }

    /** A new search term: the matching cases, from page 1. */
    method SearchChange(term: string)
      modifies this`search, this`cases, this`currentPage
      ensures search == term && cases == Search(allCases, term) && currentPage == 1
      ensures Consistent()
    {
      search := term;
      cases := Search(allCases, search);
      currentPage := 1;
    }

    /** `handlePrintReport`: opens the report of this case, completed or in progress. */
    method PrintReport(c: Case)
      modifies this`selectedCaseId, this`modalType
      ensures selectedCaseId == Some(c.id) && modalType == Some(PrintModalFor(c.status))
    {
      selectedCaseId := Some(c.id);
      modalType := Some(PrintModalFor(c.status));
    }

    method CloseModal()
      modifies this`selectedCaseId, this`modalType
      ensures selectedCaseId == None && modalType == None
    {
      selectedCaseId, modalType := None, None;
    }

    function TotalPages(): (t: nat)
      reads this`cases
      ensures t * CasesPerPage >= |cases| && (t == 0 <==> cases == [])
    {
      Paging.TotalPages(|cases|, CasesPerPage)
    }

    method PrevPage()
      modifies this`currentPage
      ensures currentPage == Paging.Prev(old(currentPage)) && currentPage >= 1
    {
      currentPage := Paging.Prev(currentPage);
    }

    /** Next, `Math.min(prev + 1, totalPages)`: never past the last page, but page 0 with no cases. */
    method NextPage()
      modifies this`currentPage
      ensures currentPage == Paging.NextAsWritten(old(currentPage), TotalPages())
      ensures currentPage <= TotalPages()
      ensures old(currentPage) >= 1 && TotalPages() == 0 ==> currentPage == 0
    {
      currentPage := Paging.NextAsWritten(currentPage, TotalPages());
    }
  }
}
