/**
 * The public "Report New Incident" form: its validation, the case record a
 * submission writes, the reference code handed back to the reporter, and
 * the family/household tables and attachment list it edits.
 */
module ReportIncident {
  import opened Js
  import opened CaseStatus
  import opened Session
  import Firestore

  type Fields = Firestore.Fields

  /** The intake keys, all "" when the form opens. */
  const FormKeys: seq<string> := [
    "reportee", "reporteeaddress", "name", "alias", "age", "contact", "incidenttype", "pbirth",
    "dbirth", "religion", "disability", "marks", "address", "paddress", "edattainment",
    "sattended", "saddress", "sex", "civilStatus", "is_firstLogin"]

  /** The columns of a family or household row. */
  const RowKeys: seq<string> := [
    "name", "age", "relationship", "status", "address", "education", "occupation", "income", "remarks"]

  function InitialForm(): (f: Fields)
    ensures forall k :: k in f <==> k in FormKeys
    ensures forall k :: k in f ==> f[k] == ""
  {
    map k | k in FormKeys :: ""
  }

  /** A row with every column "". */
  function EmptyRow(): (r: Fields)
    ensures forall k :: k in r <==> k in RowKeys
    ensures forall k :: k in r ==> r[k] == ""
  {
    map k | k in RowKeys :: ""
  }

  // ---------------------------------------------------------------------
  // Validation

  /** The checked fields; the error object is keyed by their names. */
  datatype Rule = Reportee | Contact | ChildName | IncidentType | Sex | Age | Address

  /** The form key each rule reads and reports under. */
  function RuleKey(r: Rule): string
  {
    match r
    case Reportee => "reportee"
    case Contact => "contact"
    case ChildName => "name"
    case IncidentType => "incidenttype"
    case Sex => "sex"
    case Age => "age"
    case Address => "address"
  }

  function Message(r: Rule): string
  {
    match r
    case Reportee => "Reportee Name is required"
    case Contact => "Mobile Number is required and must be 10 digits"
    case ChildName => "Child's Name is required"
    case IncidentType => "Incident Type is required"
    case Sex => "Sex is required"
    case Age => "Age is required and victim must be 18 years old below"
    case Address => "Address is required"
  }

  /** The age rule: present, and `Number(age)` neither below 1 nor above 18 (a NaN passes both comparisons). */
  predicate AgeOk(age: string, toNumber: string -> JsNumber)
  {
    age != "" && !Less(toNumber(age), 1.0) && !Greater(toNumber(age), 18.0)
  }

  /** Whether the form passes one rule. */
  predicate RuleOk(r: Rule, f: Fields, toNumber: string -> JsNumber)
  {
    match r
    case Contact => |Firestore.Get(f, "contact")| == 11
    case Age => AgeOk(Firestore.Get(f, "age"), toNumber)
    case _ => Firestore.Get(f, RuleKey(r)) != ""
  }

  /** Every rule of the form holds, written out field by field. */
  predicate FormOk(f: Fields, toNumber: string -> JsNumber)
  {
    && Firestore.Get(f, "reportee") != "" && |Firestore.Get(f, "contact")| == 11 && Firestore.Get(f, "name") != ""
    && Firestore.Get(f, "incidenttype") != "" && Firestore.Get(f, "sex") != "" && AgeOk(Firestore.Get(f, "age"), toNumber)
    && Firestore.Get(f, "address") != ""
  }

  lemma FormOkIsEveryRule(f: Fields, toNumber: string -> JsNumber)
    ensures FormOk(f, toNumber) <==> forall r :: RuleOk(r, f, toNumber)
  {
    if !FormOk(f, toNumber) {
      assert !RuleOk(Reportee, f, toNumber) || !RuleOk(Contact, f, toNumber) || !RuleOk(ChildName, f, toNumber)
        || !RuleOk(IncidentType, f, toNumber) || !RuleOk(Sex, f, toNumber) || !RuleOk(Age, f, toNumber)
        || !RuleOk(Address, f, toNumber);
    }
  }

  /** The position of each rule in `validateForm`. */
  function Order(r: Rule): (n: nat)
    ensures n < 7
  {
    match r
    case Reportee => 0
    case Contact => 1
    case ChildName => 2
    case IncidentType => 3
    case Sex => 4
    case Age => 5
    case Address => 6
  }

  /** The errors hold exactly the failing rules among the first n, each with its message. */
  ghost predicate Checked(errors: map<Rule, string>, n: nat, f: Fields, toNumber: string -> JsNumber)
  {
    && (forall r :: r in errors <==> Order(r) < n && !RuleOk(r, f, toNumber))
    && (forall r :: r in errors ==> errors[r] == Message(r))
  }

  /**
   * One `if (...) errors.<key> = message` step: `failed` is the source's
   * condition for rule r, and the rules checked before it stay accounted for.
   */
  method Flag(errors: map<Rule, string>, r: Rule, failed: bool, ghost f: Fields, ghost toNumber: string -> JsNumber)
    returns (e: map<Rule, string>)
    requires Checked(errors, Order(r), f, toNumber)
    requires failed == !RuleOk(r, f, toNumber)
    ensures Checked(e, Order(r) + 1, f, toNumber)
  {
    e := errors;
    if failed {
      e := e[r := Message(r)];
    }
  }

  /**
   * `validateForm`: fills the error object rule by rule.  `toNumber` is
   * JavaScript's `Number(...)` conversion.
   */
  method ValidateForm(f: Fields, toNumber: string -> JsNumber) returns (errors: map<Rule, string>)
    ensures forall r :: r in errors <==> !RuleOk(r, f, toNumber)
    ensures forall r :: r in errors ==> errors[r] == Message(r)
    ensures |errors| == 0 <==> FormOk(f, toNumber)
  {
    var contact, age := Firestore.Get(f, "contact"), Firestore.Get(f, "age");
    errors := map[];
    errors := Flag(errors, Reportee, Firestore.Get(f, "reportee") == "", f, toNumber);
    errors := Flag(errors, Contact, contact == "" || |contact| != 11, f, toNumber);
    errors := Flag(errors, ChildName, Firestore.Get(f, "name") == "", f, toNumber);
    errors := Flag(errors, IncidentType, Firestore.Get(f, "incidenttype") == "", f, toNumber);
    errors := Flag(errors, Sex, Firestore.Get(f, "sex") == "", f, toNumber);
    errors := Flag(errors, Age, age == "" || Less(toNumber(age), 1.0) || Greater(toNumber(age), 18.0), f, toNumber);
    errors := Flag(errors, Address, Firestore.Get(f, "address") == "", f, toNumber);
    AllChecked(errors, f, toNumber);
  }

  /** Once all seven rules are checked, the errors name exactly the failing rules. */
  lemma AllChecked(errors: map<Rule, string>, f: Fields, toNumber: string -> JsNumber)
    requires Checked(errors, 7, f, toNumber)
    ensures forall r :: r in errors <==> !RuleOk(r, f, toNumber)
    ensures forall r :: r in errors ==> errors[r] == Message(r)
    ensures |errors| == 0 <==> FormOk(f, toNumber)
  {
    FormOkIsEveryRule(f, toNumber);
    if FormOk(f, toNumber) {
      assert errors == map[];
    } else {
      var r :| !RuleOk(r, f, toNumber);
      assert r in errors;
    }
  }

  /** The contact rule wants 11 characters, though its message says 10 digits: a 10-digit number is refused. */
  lemma ContactWantsElevenCharacters(f: Fields, toNumber: string -> JsNumber)
    requires |Firestore.Get(f, "contact")| == 10
    ensures !FormOk(f, toNumber)
  {
  }

  /** Civil status and school attended are never checked: changing them never changes the verdict. */
  lemma UncheckedFields(f: Fields, key: string, value: string, toNumber: string -> JsNumber)
    requires key == "civilStatus" || key == "sattended"
    ensures FormOk(f[key := value], toNumber) == FormOk(f, toNumber)
  {
    assert forall k :: k != key ==> Firestore.Get(f[key := value], k) == Firestore.Get(f, k);
  }

  /** An age that is not a number passes the age rule, since both comparisons with NaN are false. */
  lemma NonNumericAgePasses(age: string, toNumber: string -> JsNumber)
    requires age != "" && toNumber(age) == NaN
    ensures AgeOk(age, toNumber)
  {
  }

  /** The empty form fails every rule. */
  lemma OpeningFormHasSevenErrors(toNumber: string -> JsNumber)
    ensures Firestore.Get(InitialForm(), "reportee") == "" && Firestore.Get(InitialForm(), "age") == ""
    ensures !FormOk(InitialForm(), toNumber)
  {
    assert "reportee" in FormKeys && "age" in FormKeys;
  }

  // ---------------------------------------------------------------------
  // Submission

  /** The document a submission writes under the anonymous user's id. */
  datatype CaseRecord = CaseRecord(
    uid: string, status: string, assignee: string, kind: string, createdAt: int,
    formData: Fields, familyData: seq<Fields>, householdData: seq<Fields>,
    fileUploads: seq<string>, isFirstLogin: bool)

  /** The record of a new case. */
  function NewCase(uid: string, now: int, f: Fields, family: seq<Fields>, household: seq<Fields>,
                   urls: seq<string>): (r: CaseRecord)
    ensures r.status == Review && r.assignee == "" && r.kind == Client && r.isFirstLogin
    ensures r.uid == uid && r.createdAt == now && r.formData == f
    ensures r.familyData == family && r.householdData == household && r.fileUploads == urls
  {
    CaseRecord(uid, Review, "", Client, now, f, family, household, urls, true)
  }

  /** A new case enters the pipeline at its first status. */
  lemma NewCaseIsUnderReview(uid: string, now: int, f: Fields, family: seq<Fields>, household: seq<Fields>, urls: seq<string>)
    ensures Parse(NewCase(uid, now, f, family, household, urls).status) == Some(IsReview)
  {
  }

  /** The reference code: the first three and the last three characters of the id. */
  function TransactionId(uid: string): (code: string)
    ensures |uid| >= 6 ==> |code| == 6 && code == uid[..3] + uid[|uid| - 3..]
    ensures |uid| < 3 ==> code == uid + uid
  {
    Slice(uid, 0, 3) + SliceFrom(uid, -3)
  }

  datatype Table = Family | Household

  /** Where a reporter lands once the case is written. */
  const MyReportRoute := "/client/myreport"

  class ReportModal {
    var formData: Fields
    var errors: map<Rule, string>
    var familyData: seq<Fields>
    var householdData: seq<Fields>
    var files: seq<string>
    var loading: bool
    var open: bool
    /** The session the page stores once a case is written. */
    var session: Option<ClientSession>
    /** The user type published to the rest of the application. */
    var userType: Option<string>
    /** The page the router was sent to, if any. */
    var route: Option<string>
    /** The `users` collection, as far as this form writes it. */
    var store: map<string, CaseRecord>

    constructor (store: map<string, CaseRecord>)
      ensures formData == InitialForm() && errors == map[]
      ensures familyData == [EmptyRow()] && householdData == [EmptyRow()]
      ensures files == [] && !loading && open && session == None && this.store == store
      ensures userType == None && route == None
    {
      formData, errors := InitialForm(), map[];
      familyData, householdData := [EmptyRow()], [EmptyRow()];
      files, loading, open, session := [], false, true, None;
      userType, route := None, None;
      this.store := store;
    }

    function Rows(t: Table): seq<Fields>
      reads this`familyData, this`householdData
    {
      match t
      case Family => familyData
      case Household => householdData
    }

    /** `handleChange` and `handleDropdownChange`. */
    method Change(name: string, value: string)
      modifies this`formData
      ensures formData == old(formData)[name := value]
    {
      formData := formData[name := value];
    }

    /** `handleTableChange`: sets one column of one row; every other row and column keeps its value. */
    method TableChange(t: Table, index: nat, name: string, value: string)
      requires index < |Rows(t)|
      modifies this`familyData, this`householdData
      ensures |Rows(t)| == |old(Rows(t))|
      ensures Rows(t)[index] == old(Rows(t))[index][name := value]
      ensures forall i :: 0 <= i < |Rows(t)| && i != index ==> Rows(t)[i] == old(Rows(t))[i]
      ensures forall u :: u != t ==> Rows(u) == old(Rows(u))
    {
      var rows := Rows(t);
      rows := rows[index := rows[index][name := value]];
      if t == Family { familyData := rows; } else { householdData := rows; }
    }

    /** `addRow`: appends one empty row and keeps the earlier rows. */
    method AddRow(t: Table)
      modifies this`familyData, this`householdData
      ensures Rows(t) == old(Rows(t)) + [EmptyRow()]
      ensures forall u :: u != t ==> Rows(u) == old(Rows(u))
    {
      if t == Family { familyData := familyData + [EmptyRow()]; }
      else { householdData := householdData + [EmptyRow()]; }
    }

    /** `handleFileChange`: the selected files go after the earlier ones, in order. */
    method AddFiles(selected: seq<string>)
      modifies this`files
      ensures files == old(files) + selected
    {
      files := files + selected;
    }

    /** `removeFile`: drops exactly the file at that position. */
    method RemoveFile(index: int)
      modifies this`files
      ensures 0 <= index < |old(files)| ==> |files| == |old(files)| - 1
      ensures 0 <= index < |old(files)| ==> forall j :: 0 <= j < |files| ==>
        files[j] == if j < index then old(files)[j] else old(files)[j + 1]
      ensures !(0 <= index < |old(files)|) ==> files == old(files)
    {
      files := RemoveAt(files, index);
    }

    /**
     * `handleSubmit`.  `uid` is the anonymous sign-in (None when it fails),
     * `urls` the uploaded files' addresses in file order (None when an
     * upload fails), `now` the clock, `fail` whether the record write fails.
     * Any validation error stops the submission before any of them.  The
     * user type is published once the uploads finish, before the write, so
     * a failed write still leaves it set.
     */
    method Submit(toNumber: string -> JsNumber, uid: Option<string>, urls: Option<seq<string>>, now: int, fail: bool)
      requires urls.Some? ==> |urls.value| == |files|
      modifies this`errors, this`loading, this`session, this`store, this`open, this`userType, this`route
      ensures !loading
      ensures forall r :: r in errors <==> !RuleOk(r, formData, toNumber)
      ensures forall r :: r in errors ==> errors[r] == Message(r)
      ensures |errors| == 0 <==> FormOk(formData, toNumber)
      ensures |errors| == 0 && uid.Some? && urls.Some? ==> userType == Some(Client)
      ensures !(|errors| == 0 && uid.Some? && urls.Some?) ==> userType == old(userType)
      ensures var written := |errors| == 0 && uid.Some? && urls.Some? && !fail;
        && (!written ==> store == old(store) && session == old(session) && open == old(open) && route == old(route))
        && (written ==>
             && store == old(store)[uid.value := NewCase(uid.value, now, formData, familyData, householdData, urls.value)]
             && session == Some(ClientSession(uid.value, Client, TransactionId(uid.value)))
             && route == Some(MyReportRoute)
             && !open)
    {
      loading := true;
      errors := ValidateForm(formData, toNumber);
      if |errors| == 0 {
        Publish(uid, urls, now, fail);
      }
      loading := false;
    }

    /**
     * The part of `handleSubmit` after validation: the user type once the
     * sign-in and uploads succeed, then the record, the session, the
     * redirect and the closing of the form once the write succeeds too.
     */
    method Publish(uid: Option<string>, urls: Option<seq<string>>, now: int, fail: bool)
      modifies this`session, this`store, this`open, this`userType, this`route
      ensures userType == if uid.Some? && urls.Some? then Some(Client) else old(userType)
      ensures var written := uid.Some? && urls.Some? && !fail;
        && (!written ==> store == old(store) && session == old(session) && open == old(open) && route == old(route))
        && (written ==>
             && store == old(store)[uid.value := NewCase(uid.value, now, formData, familyData, householdData, urls.value)]
             && session == Some(ClientSession(uid.value, Client, TransactionId(uid.value)))
             && route == Some(MyReportRoute)
             && !open)
    {
      if uid.Some? && urls.Some? {
        userType := Some(Client);
        if !fail {
          store := store[uid.value := NewCase(uid.value, now, formData, familyData, householdData, urls.value)];
          session := Some(ClientSession(uid.value, Client, TransactionId(uid.value)));
          route := Some(MyReportRoute);
          open := false;
        }
      }
    }
  }
}
