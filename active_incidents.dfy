/**
 * The supervisor's "Active Incidents" board: the client cases with a name
 * matching the search, in four columns chosen by exact status.
 */
module ActiveIncidents {
  import opened Js
  import opened CaseStatus

  /** The part of a case document the board reads; a missing name is "". */
  datatype Client = Client(id: string, status: string, name: string, incidenttype: string, address: string, age: string)

  datatype Column = UnassignedColumn | AssignedColumn | UnderReviewColumn | CompletedColumn

  /** The status each column filters on, exactly as the board spells it. */
  function ColumnStatus(c: Column): string
  {
    match c
    case UnassignedColumn => "unassigned"
    case AssignedColumn => "assigned"
    case UnderReviewColumn => "under review"
    case CompletedColumn => "completed"
  }

  /** The search: a non-empty name containing the term, ignoring case. */
  function Searched(term: string): Client -> bool
  {
    (c: Client) => c.name != "" && ContainsIgnoringCase(c.name, term)
  }

  function HasStatus(s: string): Client -> bool
  {
    (c: Client) => c.status == s
  }

  /** `filteredClients`.  `dateFilter` is the date picker's value, which no filter reads. */
  function Shown(clients: seq<Client>, term: string, dateFilter: int): (r: seq<Client>)
    ensures |r| <= |clients|
  {
    Filter(clients, Searched(term))
  }

  /** The cards of one column. */
  function Cards(clients: seq<Client>, term: string, dateFilter: int, col: Column): (r: seq<Client>)
    ensures |r| <= |clients|
  {
    Filter(Shown(clients, term, dateFilter), HasStatus(ColumnStatus(col)))
  }

  /** A card is a listed client with a name matching the search and exactly the column's status. */
  lemma CardMembers(clients: seq<Client>, term: string, dateFilter: int, col: Column, x: Client)
    ensures x in Cards(clients, term, dateFilter, col) <==>
      x in clients && x.name != "" && ContainsIgnoringCase(x.name, term) && x.status == ColumnStatus(col)
  {
    var shown := Shown(clients, term, dateFilter);
    FilterMembers(clients, Searched(term));
    FilterMembers(shown, HasStatus(ColumnStatus(col)));
    var cards := Cards(clients, term, dateFilter, col);
    if x in cards {
      var k :| 0 <= k < |cards| && cards[k] == x;
      assert x in shown;
      var j :| 0 <= j < |shown| && shown[j] == x;
    }
    if x in clients && x.name != "" && ContainsIgnoringCase(x.name, term) && x.status == ColumnStatus(col) {
      var k :| 0 <= k < |clients| && clients[k] == x;
      assert x in shown;
      var j :| 0 <= j < |shown| && shown[j] == x;
    }
  }

  /** A case without a name is never on the board, whatever the search. */
  lemma NamelessNeverShown(clients: seq<Client>, term: string, dateFilter: int, x: Client)
    requires x.name == ""
    ensures x !in Shown(clients, term, dateFilter)
  {
  }

  /** A card sits in at most one column. */
  lemma AtMostOneColumn(clients: seq<Client>, term: string, dateFilter: int, x: Client, c1: Column, c2: Column)
    requires x in Cards(clients, term, dateFilter, c1) && x in Cards(clients, term, dateFilter, c2)
    ensures c1 == c2
  {
    CardMembers(clients, term, dateFilter, c1, x);
    CardMembers(clients, term, dateFilter, c2, x);
  }

  /** The statuses the officer's kanban writes match no column, so those cases drop off the board. */
  lemma PipelineStatusesHidden(clients: seq<Client>, term: string, dateFilter: int, x: Client, col: Column)
    requires x.status == UnderInvestigation || x.status == InProgress || x.status == Completed
    ensures x !in Cards(clients, term, dateFilter, col)
  {
    CardMembers(clients, term, dateFilter, col, x);
  }

  /** No page writes "under review" or "completed": a case with a written status never reaches those two columns. */
  lemma TwoColumnsNeverFilled(clients: seq<Client>, term: string, dateFilter: int, x: Client, s: Status, col: Column)
    requires col == UnderReviewColumn || col == CompletedColumn
    requires x.status == Name(s)
    ensures x !in Cards(clients, term, dateFilter, col)
  {
    CardMembers(clients, term, dateFilter, col, x);
  }

  /** The date picker changes no column. */
  lemma DateFilterIgnored(clients: seq<Client>, term: string, d1: int, d2: int, col: Column)
    ensures Cards(clients, term, d1, col) == Cards(clients, term, d2, col)
  {
  }
}
