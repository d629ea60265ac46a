/**
 * The officer's kanban board (the "Assigned Incidents" page): four columns
 * of cases keyed by status, a drag-and-drop guard between columns, the
 * three capture forms that forward moves open, and the reverting moves that
 * rewrite only the status.
 */
module AssignedIncidents {
  import opened Js
  import opened CaseStatus
  import StableSort
  import Firestore

  /** A form or the intake record: field name to text. */
  type Form = map<string, string>

  /** A case document as the store holds it; `formData` may be absent. */
  datatype CaseDoc = CaseDoc(
    title: string,
    status: string,
    createdAt: int,
    formData: Option<Form>,
    firstForm: Option<Form>,
    secondForm: Option<Form>,
    completeForm: Option<Form>)

  /** A card on the board. */
  datatype Incident = Incident(
    id: string,
    title: string,
    status: string,
    createdAt: int,
    formData: Form,
    firstForm: Option<Form>,
    secondForm: Option<Form>,
    completeForm: Option<Form>)

  /** The four columns; each is named by the status its cards carry. */
  datatype Column = ToDo | Investigation | Ongoing | Done

  function ColumnStatus(c: Column): string
  {
    match c
    case ToDo => Assigned
    case Investigation => UnderInvestigation
    case Ongoing => InProgress
    case Done => Completed
  }

  /** The column that holds a status, if any. */
  function ColumnOf(status: string): (r: Option<Column>)
    ensures r.Some? ==> ColumnStatus(r.value) == status
    ensures r.None? ==> forall c :: ColumnStatus(c) != status
  {
    if status == Assigned then Some(ToDo)
    else if status == UnderInvestigation then Some(Investigation)
    else if status == InProgress then Some(Ongoing)
    else if status == Completed then Some(Done)
    else None
  }

  function ColumnPipelineStatus(c: Column): Status
  {
    match c
    case ToDo => IsAssigned
    case Investigation => IsUnderInvestigation
    case Ongoing => IsInProgress
    case Done => IsCompleted
  }

  // ---------------------------------------------------------------------
  // Record shape

  const DefaultKeys: seq<string> := [
    "address", "age", "alias", "civilStatus", "contact", "dbirth", "disability",
    "edattainment", "incidenttype", "marks", "name", "paddress", "pbirth",
    "religion", "saddress", "sattended", "sex"]

  /** `defaultFormData`: every intake key mapped to "". */
  function DefaultFormData(): (m: Form)
    ensures forall k :: k in m <==> k in DefaultKeys
    ensures forall k :: k in m ==> m[k] == ""
  {
    map k | k in DefaultKeys :: ""
  }

  /** `{ ...defaultFormData, ...data.formData }`; spreading a missing record adds nothing. */
  function MergeFormData(stored: Option<Form>): (m: Form)
    ensures forall k :: k in DefaultKeys ==> k in m
    ensures stored.Some? ==> forall k :: k in stored.value ==> k in m && m[k] == stored.value[k]
    ensures forall k :: k in m && (stored.None? || k !in stored.value) ==> k in DefaultKeys && m[k] == ""
    ensures forall k :: k in m ==> k in DefaultKeys || (stored.Some? && k in stored.value)
  {
    match stored
    case None => DefaultFormData()
    case Some(f) => DefaultFormData() + f
  }

  /** `{ id: doc.id, ...data, formData: merged }`. */
  function Load(id: string, d: CaseDoc): Incident
  {
    Incident(id, d.title, d.status, d.createdAt, MergeFormData(d.formData),
             d.firstForm, d.secondForm, d.completeForm)
  }

  // ---------------------------------------------------------------------
  // The drop guard

  /** The early-return condition of the drop handler. */
  predicate DropRejected(source: Column, dest: Column)
  {
    (source == ToDo && dest != Investigation) ||
    (source == Investigation && dest !in [ToDo, Ongoing]) ||
    (source == Ongoing && dest !in [Investigation, Done]) ||
    (source == Done && dest != Ongoing)
  }

  /** `isValidTarget`: highlights the columns a card may be dropped on. */
  function IsValidTarget(source: Option<Column>, target: Column): bool
  {
    match source
    case None => false
    case Some(s) =>
      if s == ToDo && target == Investigation then true
      else if s == Investigation && target in [ToDo, Ongoing] then true
      else if s == Ongoing && target in [Investigation, Done] then true
      else if s == Done && target == Ongoing then true
      else false
  }

  /** What a drop does, in the order the handler tests it. */
  datatype DropEffect = NoChange | OpenFirstForm | OpenSecondForm | OpenCompleteForm | Revert

  function EffectOf(source: Column, dest: Column): DropEffect
  {
    if source == dest then NoChange
    else if DropRejected(source, dest) then NoChange
    else if source == ToDo && dest == Investigation then OpenFirstForm
    else if source == Investigation && dest == Ongoing then OpenSecondForm
    else if dest == Done then OpenCompleteForm
    else Revert
  }

  /** The guard admits exactly the six listed pairs. */
  lemma GuardAdmits(source: Column, dest: Column)
    ensures !DropRejected(source, dest) <==>
      (source, dest) in [(ToDo, Investigation), (Investigation, ToDo), (Investigation, Ongoing),
                         (Ongoing, Investigation), (Ongoing, Done), (Done, Ongoing)]
  {
  }

  /** The highlight and the guard agree, and no column is highlighted while nothing is dragged. */
  lemma ValidTargetMatchesGuard(source: Option<Column>, dest: Column)
    ensures source.None? ==> !IsValidTarget(source, dest)
    ensures source.Some? ==> (IsValidTarget(source, dest) <==> !DropRejected(source.value, dest))
    ensures source.Some? ==> (IsValidTarget(source, dest) <==> EffectOf(source.value, dest) != NoChange)
  {
  }

  /** A card dropped on its own column does nothing. */
  lemma SameColumnDoesNothing(c: Column)
    ensures EffectOf(c, c) == NoChange
  {
  }

  /** The forward moves only open their form; the three backward moves revert at once. */
  lemma EffectTable(source: Column, dest: Column)
    ensures EffectOf(source, dest) == OpenFirstForm <==> source == ToDo && dest == Investigation
    ensures EffectOf(source, dest) == OpenSecondForm <==> source == Investigation && dest == Ongoing
    ensures EffectOf(source, dest) == OpenCompleteForm <==> source == Ongoing && dest == Done
    ensures EffectOf(source, dest) == Revert <==>
      (source, dest) in [(Investigation, ToDo), (Ongoing, Investigation), (Done, Ongoing)]
  {
  }

  /** Every move the board allows is a step of the case pipeline. */
  lemma MovesArePipelineSteps(source: Column, dest: Column)
    requires EffectOf(source, dest) != NoChange
    ensures Step(ColumnPipelineStatus(source), ColumnPipelineStatus(dest))
  {
  }

  /** Drop the cards with this id. */
  function WithoutId(l: seq<Incident>, id: string): (r: seq<Incident>)
    ensures forall k :: 0 <= k < |r| ==> r[k].id != id && r[k] in l
    ensures forall k :: 0 <= k < |l| && l[k].id != id ==> l[k] in r
    ensures IsSubsequence(r, l)
  {
    FilterMembers(l, HasOtherId(id));
    Filter(l, HasOtherId(id))
  }

  function HasOtherId(id: string): Incident -> bool
  {
    (i: Incident) => i.id != id
  }

  /** The incidents of a fetch whose status names column c. */
  function Bucket(l: seq<Incident>, c: Column): seq<Incident>
  {
    Filter(l, InColumn(c))
  }

  /** The test of the fetch's switch: the status names column c. */
  function InColumn(c: Column): Incident -> bool
  {
    (i: Incident) => ColumnOf(i.status) == Some(c)
  }

  /** The cards a query result loads into, in query order. */
  function LoadAll(ds: seq<(string, CaseDoc)>): (r: seq<Incident>)
    ensures |r| == |ds|
    ensures forall k :: 0 <= k < |ds| ==> r[k] == Load(ds[k].0, ds[k].1)
  {
    seq(|ds|, k requires 0 <= k < |ds| => Load(ds[k].0, ds[k].1))
  }

  /** The comparator `timeB - timeA` over a field no writer stores is NaN, which sort treats as "equal". */
  function NaNKey(i: Incident): (int, int)
  {
    (0, 0)
  }

  /** Sorting by the NaN comparator keeps the fetched order. */
  lemma NaNSortKeepsOrder(l: seq<Incident>)
    ensures StableSort.Sort(l, NaNKey) == l
  {
    StableSort.SortOfSorted(l, NaNKey);
  }

  /** Each fetched incident lands in exactly the column its status names, or in none. */
  lemma BucketsPartition(l: seq<Incident>, k: nat, c: Column)
    requires k < |l|
    ensures l[k] in Bucket(l, c) <==> ColumnOf(l[k].status) == Some(c)
  {
    FilterMembers(l, InColumn(c));
  }

  /** Every card of l carries status s. */
  ghost predicate AllStatus(l: seq<Incident>, s: string)
  {
    forall i :: 0 <= i < |l| ==> l[i].status == s
  }

  lemma AllStatusWithout(l: seq<Incident>, id: string, s: string)
    requires AllStatus(l, s)
    ensures AllStatus(WithoutId(l, id), s)
  {
    var r := WithoutId(l, id);
    forall k | 0 <= k < |r| ensures r[k].status == s {
      var j :| 0 <= j < |l| && l[j] == r[k];
    }
  }

  /** Fetching one more case extends exactly the bucket its status names. */
  lemma BucketAppend(l: seq<Incident>, x: Incident, c: Column)
    ensures Bucket(l + [x], c) == Bucket(l, c) + (if ColumnOf(x.status) == Some(c) then [x] else [])
  {
    FilterSnoc(l, x, InColumn(c));
  }

  /** The list a fetch builds for a column satisfies the column invariant. */
  lemma BucketStatus(l: seq<Incident>, c: Column)
    ensures AllStatus(Bucket(l, c), ColumnStatus(c))
  {
  }

  /** A save or revert write: the store changes only if the write goes through. */
  function Write(store: map<string, CaseDoc>, id: string, fail: bool, f: CaseDoc -> CaseDoc): (r: map<string, CaseDoc>)
    ensures r.Keys == store.Keys
    ensures forall k :: k in store && k != id ==> r[k] == store[k]
  {
    if !fail && id in store then store[id := f(store[id])] else store
  }

  /** The update `{ status }` of a revert. */
  function SetStatus(status: string): CaseDoc -> CaseDoc
  {
    (d: CaseDoc) => d.(status := status)
  }

  const InitialFirstForm: Form := map[
    "userName" := "", "userAddress" := "", "contactNumber" := "", "referralReason" := "",
    "referralDate" := "", "clientCategory" := "Minor", "offenseDate" := "", "offensePlace" := "",
    "apprehensionDate" := "", "apprehensionPlace" := "", "apprehendedBy" := "",
    "agencyAddress" := "", "agencyContact" := ""]
  const InitialSecondForm: Form := map["officerReport" := "", "childVersion" := "", "caseCircumstances" := ""]
  const InitialCompleteForm: Form := map["initialAssessment" := ""]

  /** The sort of `fetchData` by a timestamp the cards do not carry: every comparison is NaN, so the order stays. */
  method SortByTimestamp(l: seq<Incident>) returns (r: seq<Incident>)
    ensures r == l
  {
    r := StableSort.Sort(l, NaNKey);
    NaNSortKeepsOrder(l);
  }

  /** The switch of `fetchData`: one pass over the query result, pushing each case onto its column's list. */
  method SplitByStatus(ds: seq<(string, CaseDoc)>) returns (toDoList: seq<Incident>, investigationList: seq<Incident>,
                                                             inProgressList: seq<Incident>, completedList: seq<Incident>)
    ensures toDoList == Bucket(LoadAll(ds), ToDo)
    ensures investigationList == Bucket(LoadAll(ds), Investigation)
    ensures inProgressList == Bucket(LoadAll(ds), Ongoing)
    ensures completedList == Bucket(LoadAll(ds), Done)
  {
    ghost var loaded := LoadAll(ds);
    toDoList, investigationList, inProgressList, completedList := [], [], [], [];
    var i := 0;
    while i < |ds|
      invariant 0 <= i <= |ds|
      invariant toDoList == Bucket(loaded[..i], ToDo)
      invariant investigationList == Bucket(loaded[..i], Investigation)
      invariant inProgressList == Bucket(loaded[..i], Ongoing)
      invariant completedList == Bucket(loaded[..i], Done)
    {
      var incident := Load(ds[i].0, ds[i].1);
      assert loaded[..i + 1] == loaded[..i] + [incident];
      BucketAppend(loaded[..i], incident, ToDo);
      BucketAppend(loaded[..i], incident, Investigation);
      BucketAppend(loaded[..i], incident, Ongoing);
      BucketAppend(loaded[..i], incident, Done);
      var column := ColumnOf(incident.status);
      if column == Some(ToDo) {
        toDoList := toDoList + [incident];
      } else if column == Some(Investigation) {
        investigationList := investigationList + [incident];
      } else if column == Some(Ongoing) {
        inProgressList := inProgressList + [incident];
      } else if column == Some(Done) {
        completedList := completedList + [incident];
      }
      i := i + 1;
    }
    assert loaded[..|ds|] == loaded;
  }

  class Board {
    var toDo: seq<Incident>
    var underInvestigation: seq<Incident>
    var inProgress: seq<Incident>
    var completed: seq<Incident>
    var draggingSource: Option<Column>
    var currentIncident: Option<Incident>
    var firstModalOpen: bool
    var secondModalOpen: bool
    var completeModalOpen: bool
    var firstForm: Form
    var secondForm: Form
    var completeForm: Form
    /** The case documents, by id. */
    var store: map<string, CaseDoc>

    function List(c: Column): seq<Incident>
      reads this`toDo, this`underInvestigation, this`inProgress, this`completed
    {
      match c
      case ToDo => toDo
      case Investigation => underInvestigation
      case Ongoing => inProgress
      case Done => completed
    }

    /** Every card sits in the column its status names. */
    ghost predicate Bucketed()
      reads this`toDo, this`underInvestigation, this`inProgress, this`completed
    {
      forall c :: AllStatus(List(c), ColumnStatus(c))
    }

    constructor (store: map<string, CaseDoc>)
      ensures Bucketed()
      ensures forall c :: List(c) == []
      ensures draggingSource == None && currentIncident == None
      ensures !firstModalOpen && !secondModalOpen && !completeModalOpen
      ensures firstForm == InitialFirstForm && secondForm == InitialSecondForm
      ensures completeForm == InitialCompleteForm
      ensures this.store == store
    {
      toDo, underInvestigation, inProgress, completed := [], [], [], [];
      draggingSource, currentIncident := None, None;
      firstModalOpen, secondModalOpen, completeModalOpen := false, false, false;
      firstForm, secondForm, completeForm := InitialFirstForm, InitialSecondForm, InitialCompleteForm;
      this.store := store;
    }

    /** Replaces one column's list. */
    method SetList(c: Column, l: seq<Incident>)
      modifies this
      ensures List(c) == l
      ensures forall d :: d != c ==> List(d) == old(List(d))
      ensures draggingSource == old(draggingSource) && currentIncident == old(currentIncident)
      ensures firstModalOpen == old(firstModalOpen) && secondModalOpen == old(secondModalOpen)
      ensures completeModalOpen == old(completeModalOpen)
      ensures firstForm == old(firstForm) && secondForm == old(secondForm)
      ensures completeForm == old(completeForm) && store == old(store)
    {
      match c
      case ToDo => toDo := l;
      case Investigation => underInvestigation := l;
      case Ongoing => inProgress := l;
      case Done => completed := l;
    }

    /**
     * `fetchData`: with a signed-in officer and a successful query, each
     * fetched case goes to the list its status names; other statuses go
     * nowhere.  No officer, or a failed query, changes nothing.
     */
    method Fetch(signedIn: bool, docs: Option<seq<(string, CaseDoc)>>)
      modifies this
      ensures signedIn && docs.Some? ==> Bucketed()
      ensures !signedIn || docs.None? ==> forall c :: List(c) == old(List(c))
      ensures signedIn && docs.Some? ==> forall c ::
        List(c) == Bucket(LoadAll(docs.value), c)
      ensures draggingSource == old(draggingSource) && currentIncident == old(currentIncident)
      ensures firstModalOpen == old(firstModalOpen) && secondModalOpen == old(secondModalOpen)
      ensures completeModalOpen == old(completeModalOpen)
      ensures firstForm == old(firstForm) && secondForm == old(secondForm)
      ensures completeForm == old(completeForm) && store == old(store)
    {
      if !signedIn || docs.None? {
        return;
      }
      var toDoList, investigationList, inProgressList, completedList := SplitByStatus(docs.value);
      toDo := SortByTimestamp(toDoList);
      underInvestigation := SortByTimestamp(investigationList);
      inProgress := SortByTimestamp(inProgressList);
      completed := SortByTimestamp(completedList);
      forall c ensures List(c) == Bucket(LoadAll(docs.value), c)
                  && AllStatus(List(c), ColumnStatus(c)) {
        BucketStatus(LoadAll(docs.value), c);
      }
    }

    /** `handleDragStart`: remembers the column and the card being dragged. */
    method DragStart(item: Incident, source: Column)
      modifies this
      ensures draggingSource == Some(source) && currentIncident == Some(item)
      ensures forall c :: List(c) == old(List(c))
      ensures firstModalOpen == old(firstModalOpen) && secondModalOpen == old(secondModalOpen)
      ensures completeModalOpen == old(completeModalOpen)
      ensures firstForm == old(firstForm) && secondForm == old(secondForm)
      ensures completeForm == old(completeForm) && store == old(store)
    {
      draggingSource := Some(source);
      currentIncident := Some(item);
    }

    /** `handleDragEnd`. */
    method DragEnd()
      modifies this`draggingSource
      ensures draggingSource == None
    {
      draggingSource := None;
    }

    /**
     * Takes the cards with this id out of column `from` (unless it is the
     * destination) and appends `card` to column `to`.
     */
    method Move(id: string, from: Option<Column>, to: Column, card: Incident)
      requires Bucketed() && card.status == ColumnStatus(to)
      modifies this
      ensures Bucketed()
      ensures from.Some? && from.value != to ==> List(from.value) == WithoutId(old(List(from.value)), id)
      ensures List(to) == old(List(to)) + [card]
      ensures forall c :: c != to && Some(c) != from ==> List(c) == old(List(c))
      ensures draggingSource == old(draggingSource) && currentIncident == old(currentIncident)
      ensures firstModalOpen == old(firstModalOpen) && secondModalOpen == old(secondModalOpen)
      ensures completeModalOpen == old(completeModalOpen)
      ensures firstForm == old(firstForm) && secondForm == old(secondForm)
      ensures completeForm == old(completeForm) && store == old(store)
    {
      if from.Some? && from.value != to {
        AllStatusWithout(List(from.value), id, ColumnStatus(from.value));
        SetList(from.value, WithoutId(List(from.value), id));
      }
      var grown := List(to) + [card];
      assert AllStatus(grown, ColumnStatus(to));
      SetList(to, grown);
    }

    /** The forward drop out of To Do: pre-fills the referral form from the intake record and opens it. */
    method OpenReferral(item: Incident, referralDate: string)
      modifies this`firstForm, this`firstModalOpen
      ensures firstForm == old(firstForm)["userName" := Firestore.Get(item.formData, "name")]
                                         ["userAddress" := Firestore.Get(item.formData, "address")]
                                         ["contactNumber" := Firestore.Get(item.formData, "contact")]
                                         ["referralDate" := referralDate]
      ensures firstModalOpen
    {
      firstForm := firstForm["userName" := Firestore.Get(item.formData, "name")]
                            ["userAddress" := Firestore.Get(item.formData, "address")]
                            ["contactNumber" := Firestore.Get(item.formData, "contact")]
                            ["referralDate" := referralDate];
      firstModalOpen := true;
    }

    /** A backward drop: the card moves at once and only its status is written. */
    method MoveBack(item: Incident, source: Column, dest: Column, fail: bool)
      requires Bucketed() && source != dest
      modifies this
      ensures Bucketed()
      ensures List(source) == WithoutId(old(List(source)), item.id)
      ensures List(dest) == old(List(dest)) + [item.(status := ColumnStatus(dest))]
      ensures forall c :: c != source && c != dest ==> List(c) == old(List(c))
      ensures store == Write(old(store), item.id, fail, SetStatus(ColumnStatus(dest)))
      ensures draggingSource == None && currentIncident == old(currentIncident)
      ensures firstModalOpen == old(firstModalOpen) && secondModalOpen == old(secondModalOpen)
      ensures completeModalOpen == old(completeModalOpen)
      ensures firstForm == old(firstForm) && secondForm == old(secondForm)
      ensures completeForm == old(completeForm)
    {
      Move(item.id, Some(source), dest, item.(status := ColumnStatus(dest)));
      store := Write(store, item.id, fail, SetStatus(ColumnStatus(dest)));
      draggingSource := None;
    }

    /**
     * `handleDrop` of `item` dragged from `source` onto `dest`.  The date
     * the referral form is pre-filled with is formatted by the browser; it
     * is passed in as `referralDate`.  `fail` says whether the status write
     * fails; the list move of a revert is not rolled back when it does.
     */
    method Drop(item: Incident, source: Column, dest: Column, referralDate: string, fail: bool)
      requires Bucketed()
      modifies this
      ensures Bucketed()
      ensures EffectOf(source, dest) != Revert ==> forall c :: List(c) == old(List(c))
      ensures EffectOf(source, dest) != Revert ==> store == old(store)
      ensures EffectOf(source, dest) == Revert ==>
        && List(source) == WithoutId(old(List(source)), item.id)
        && List(dest) == old(List(dest)) + [item.(status := ColumnStatus(dest))]
        && (forall c :: c != source && c != dest ==> List(c) == old(List(c)))
        && store == Write(old(store), item.id, fail, SetStatus(ColumnStatus(dest)))
        && draggingSource == None
      ensures EffectOf(source, dest) != Revert ==> draggingSource == old(draggingSource)
      ensures firstModalOpen == (old(firstModalOpen) || EffectOf(source, dest) == OpenFirstForm)
      ensures secondModalOpen == (old(secondModalOpen) || EffectOf(source, dest) == OpenSecondForm)
      ensures completeModalOpen == (old(completeModalOpen) || EffectOf(source, dest) == OpenCompleteForm)
      ensures currentIncident == if EffectOf(source, dest) == OpenCompleteForm then Some(item) else old(currentIncident)
      ensures firstForm == if EffectOf(source, dest) == OpenFirstForm
        then old(firstForm)["userName" := Firestore.Get(item.formData, "name")]
                           ["userAddress" := Firestore.Get(item.formData, "address")]
                           ["contactNumber" := Firestore.Get(item.formData, "contact")]
                           ["referralDate" := referralDate]
        else old(firstForm)
      ensures secondForm == old(secondForm) && completeForm == old(completeForm)
    {
      var effect := EffectOf(source, dest);
      if effect == OpenFirstForm {
        OpenReferral(item, referralDate);
      } else if effect == OpenSecondForm {
        secondModalOpen := true;
      } else if effect == OpenCompleteForm {
        currentIncident := Some(item);
        completeModalOpen := true;
      } else if effect == Revert {
        MoveBack(item, source, dest, fail);
      }
    }

    /**
     * `handleSave` of the completion form: only once the write of the form
     * and the status succeeds is the case taken out of the list its stored
     * status names (the To Do, Under Investigation or In Progress list) and
     * appended to Completed with the form attached.
     */
    method SaveCompleteForm(fail: bool)
      requires Bucketed()
      modifies this
      ensures Bucketed()
      ensures currentIncident == old(currentIncident)
      ensures var ok := currentIncident.Some? && !fail && currentIncident.value.id in old(store);
        && (!ok ==> forall c :: List(c) == old(List(c)))
        && (!ok ==> store == old(store) && completeModalOpen == old(completeModalOpen))
        && (ok ==> var cur := currentIncident.value;
             var from := ColumnOf(cur.status);
             && store == old(store)[cur.id := old(store)[cur.id].(completeForm := Some(completeForm), status := Completed)]
             && (forall c :: c != Done && Some(c) != from ==> List(c) == old(List(c)))
             && (from.Some? && from.value != Done ==> List(from.value) == WithoutId(old(List(from.value)), cur.id))
             && List(Done) == old(List(Done)) + [cur.(status := Completed, completeForm := Some(completeForm))]
             && !completeModalOpen)
      ensures draggingSource == old(draggingSource)
      ensures firstModalOpen == old(firstModalOpen) && secondModalOpen == old(secondModalOpen)
      ensures firstForm == old(firstForm) && secondForm == old(secondForm) && completeForm == old(completeForm)
    {
      if currentIncident.None? || fail || currentIncident.value.id !in store {
        return;
      }
      var cur := currentIncident.value;
      store := store[cur.id := store[cur.id].(completeForm := Some(completeForm), status := Completed)];
      Move(cur.id, ColumnOf(cur.status), Done, cur.(status := Completed, completeForm := Some(completeForm)));
      completeModalOpen := false;
    }

    /**
     * `handleFirstModalSave`: after the write of the referral form and
     * "Under Investigation" succeeds, the case leaves To Do and joins Under
     * Investigation with the form attached.
     */
    method SaveFirstForm(fail: bool)
      requires Bucketed()
      modifies this
      ensures Bucketed()
      ensures currentIncident == old(currentIncident)
      ensures var ok := currentIncident.Some? && !fail && currentIncident.value.id in old(store);
        && (!ok ==> forall c :: List(c) == old(List(c)))
        && (!ok ==> store == old(store) && firstModalOpen == old(firstModalOpen))
        && (ok ==> var cur := currentIncident.value;
             && store == old(store)[cur.id := old(store)[cur.id].(firstForm := Some(firstForm), status := UnderInvestigation)]
             && List(ToDo) == WithoutId(old(List(ToDo)), cur.id)
             && List(Investigation) == old(List(Investigation)) + [cur.(status := UnderInvestigation, firstForm := Some(firstForm))]
             && List(Ongoing) == old(List(Ongoing)) && List(Done) == old(List(Done))
             && !firstModalOpen)
      ensures draggingSource == old(draggingSource)
      ensures secondModalOpen == old(secondModalOpen) && completeModalOpen == old(completeModalOpen)
      ensures firstForm == old(firstForm) && secondForm == old(secondForm) && completeForm == old(completeForm)
    {
      if currentIncident.None? || fail || currentIncident.value.id !in store {
        return;
      }
      var cur := currentIncident.value;
      store := store[cur.id := store[cur.id].(firstForm := Some(firstForm), status := UnderInvestigation)];
      Move(cur.id, Some(ToDo), Investigation, cur.(status := UnderInvestigation, firstForm := Some(firstForm)));
      firstModalOpen := false;
    }

    /**
     * `handleSecondModalSave`: after the write of the investigation form and
     * "In Progress" succeeds, the case leaves Under Investigation and joins
     * In Progress with the form attached.
     */
    method SaveSecondForm(fail: bool)
      requires Bucketed()
      modifies this
      ensures Bucketed()
      ensures currentIncident == old(currentIncident)
      ensures var ok := currentIncident.Some? && !fail && currentIncident.value.id in old(store);
        && (!ok ==> forall c :: List(c) == old(List(c)))
        && (!ok ==> store == old(store) && secondModalOpen == old(secondModalOpen))
        && (ok ==> var cur := currentIncident.value;
             && store == old(store)[cur.id := old(store)[cur.id].(secondForm := Some(secondForm), status := InProgress)]
             && List(Investigation) == WithoutId(old(List(Investigation)), cur.id)
             && List(Ongoing) == old(List(Ongoing)) + [cur.(status := InProgress, secondForm := Some(secondForm))]
             && List(ToDo) == old(List(ToDo)) && List(Done) == old(List(Done))
             && !secondModalOpen)
      ensures draggingSource == old(draggingSource)
      ensures firstModalOpen == old(firstModalOpen) && completeModalOpen == old(completeModalOpen)
      ensures firstForm == old(firstForm) && secondForm == old(secondForm) && completeForm == old(completeForm)
    {
      if currentIncident.None? || fail || currentIncident.value.id !in store {
        return;
      }
      var cur := currentIncident.value;
      store := store[cur.id := store[cur.id].(secondForm := Some(secondForm), status := InProgress)];
      Move(cur.id, Some(Investigation), Ongoing, cur.(status := InProgress, secondForm := Some(secondForm)));
      secondModalOpen := false;
    }

    /** `handleChange`: edits the form of whichever modal is open, the referral form first. */
    method EditForm(name: string, value: string)
      modifies this`firstForm, this`secondForm, this`completeForm
      ensures firstForm == if firstModalOpen then old(firstForm)[name := value] else old(firstForm)
      ensures secondForm == if !firstModalOpen && secondModalOpen then old(secondForm)[name := value] else old(secondForm)
      ensures completeForm == if !firstModalOpen && !secondModalOpen && completeModalOpen
        then old(completeForm)[name := value] else old(completeForm)
    {
      if firstModalOpen {
        firstForm := firstForm[name := value];
      } else if secondModalOpen {
        secondForm := secondForm[name := value];
      } else if completeModalOpen {
        completeForm := completeForm[name := value];
      }
    }

    /** `handleCancel`, `handleFirstModalCancel`, `handleSecondModalCancel`: close without writing. */
    method CancelForms(first: bool, second: bool, complete: bool)
      modifies this`firstModalOpen, this`secondModalOpen, this`completeModalOpen
      ensures firstModalOpen == (old(firstModalOpen) && !first)
      ensures secondModalOpen == (old(secondModalOpen) && !second)
      ensures completeModalOpen == (old(completeModalOpen) && !complete)
    {
      if first { firstModalOpen := false; }
      if second { secondModalOpen := false; }
      if complete { completeModalOpen := false; }
    }
  }

  /** A revert writes only the status, so a completion form stored earlier survives it. */
  lemma RevertKeepsForms(store: map<string, CaseDoc>, id: string, fail: bool, dest: Column)
    requires id in store
    ensures var r := Write(store, id, fail, SetStatus(ColumnStatus(dest)));
      && r[id].completeForm == store[id].completeForm
      && r[id].firstForm == store[id].firstForm
      && r[id].secondForm == store[id].secondForm
      && r[id].formData == store[id].formData
      && r[id].status == if fail then store[id].status else ColumnStatus(dest)
  {
  }
}
