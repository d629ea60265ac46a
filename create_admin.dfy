/**
 * The super-admin's staff account page: a searchable list of accounts and
 * a modal form that adds a user (POST) or edits one (PUT) through
 * `/api/users`.  The form's submit is modelled with the server's `ok`
 * answer as a parameter; the refetch of the list after a change is
 * `FetchUsers`.
 */
module CreateAdmin {
  import opened Js
  import Paging
  import UsersApi

  datatype User = User(id: string, name: string, email: string, kind: string, address: string)

  /** The form's contents: a user without an id. */
  datatype Form = Form(name: string, email: string, kind: string, address: string)

  datatype ModalType = Add | Edit

  /** The JSON body of a submit; `password` is left out of the JSON when absent. */
  datatype Payload = Payload(email: string, password: Option<string>, fullName: string, name: string, kind: string, address: string)

  datatype Request = Request(verb: string, url: string, body: Payload)

  const BlankForm := Form("", "", "admin", "")
  const Required := "All fields are required. Password is required when adding a user."
  const UsersUrl := "/api/users"

  /** The submit guard: name, email and address, and a password in add mode. */
  predicate Complete(user: Form, password: string, modalType: ModalType)
  {
    user.name != "" && user.email != "" && user.address != "" && (modalType == Add ==> password != "")
  }

  /** `editingUserId ? ... : ...`: a null or empty id is falsy. */
  predicate Editing(editingUserId: Option<string>)
  {
    editingUserId.Some? && editingUserId.value != ""
  }

  /** The method, URL and payload of a submit. */
  function RequestFor(user: Form, password: string, editingUserId: Option<string>, modalType: ModalType): (r: Request)
    ensures r.verb == "PUT" <==> Editing(editingUserId)
    ensures r.verb != "PUT" ==> r.verb == "POST" && r.url == UsersUrl
    ensures Editing(editingUserId) ==> r.url == UsersUrl + "?id=" + editingUserId.value
    ensures r.body.password.Some? <==> modalType == Add
    ensures r.body.password.Some? ==> r.body.password.value == password
    ensures r.body.fullName == user.name && r.body.name == user.name
    ensures r.body.email == user.email && r.body.kind == user.kind && r.body.address == user.address
  {
    var verb := if Editing(editingUserId) then "PUT" else "POST";
    var url := if Editing(editingUserId) then UsersUrl + "?id=" + editingUserId.value else UsersUrl;
    Request(verb, url, Payload(user.email, if modalType == Add then Some(password) else None,
                               user.name, user.name, user.kind, user.address))
  }

  /** The body the route receives. */
  function BodyOf(p: Payload): (b: UsersApi.Body)
    ensures "password" in b <==> p.password.Some?
    ensures b.Keys - {"password"} == {"email", "fullName", "name", "type", "address"}
  {
    var b := map["email" := p.email, "fullName" := p.fullName, "name" := p.name, "type" := p.kind, "address" := p.address];
    if p.password.Some? then b["password" := p.password.value] else b
  }

  /** In add mode a form that passes the guard is also a complete POST body for the route. */
  lemma AddFormAccepted(user: Form, password: string, env: UsersApi.Env)
    requires Complete(user, password, Add) && user.kind != ""
    ensures UsersApi.AddUser(BodyOf(RequestFor(user, password, None, Add).body), env).response.status != 400
  {
  }

  /** The rows the search keeps: a non-empty name containing the term, ignoring case. */
  function NameHas(term: string): User -> bool
  {
    (u: User) => u.name != "" && ContainsIgnoringCase(u.name, term)
  }

  function FilterUsers(users: seq<User>, term: string): (r: seq<User>)
    ensures forall k :: 0 <= k < |r| ==> r[k].name != "" && ContainsIgnoringCase(r[k].name, term)
  {
    Filter(users, NameHas(term))
  }

  /** The list holds exactly the named users matching the term, in order; a page holds at most itemsPerPage. */
  lemma ListedUsers(users: seq<User>, term: string, page: int, per: nat)
    requires per > 0
    ensures forall k :: 0 <= k < |FilterUsers(users, term)| ==> FilterUsers(users, term)[k] in users
    ensures forall k :: 0 <= k < |users| && users[k].name != "" && ContainsIgnoringCase(users[k].name, term) ==>
      users[k] in FilterUsers(users, term)
    ensures |Paging.PageSlice(FilterUsers(users, term), page, per)| <= per
  {
    FilterMembers(users, NameHas(term));
  }

  /**
   * As written, only Edit ever sets the modal type: after an edit, the
   * "Add User" form stays in edit mode, so it passes the guard without a
   * password and POSTs a body the route refuses with 400.
   */
  lemma AddAfterEditSkipsPassword(user: Form, env: UsersApi.Env)
    requires user.name != "" && user.email != "" && user.address != ""
    ensures Complete(user, "", Edit)
    ensures RequestFor(user, "", None, Edit).verb == "POST"
    ensures UsersApi.AddUser(BodyOf(RequestFor(user, "", None, Edit).body), env).response.status == 400
  {
  }

  /**
   * Closing the modal keeps the edited id and the form, so an "Add User"
   * opened after a cancelled edit submits a PUT to the edited user, with no
   * password, whatever the form then holds.
   */
  lemma AddAfterCancelledEditUpdates(edited: User, user: Form, password: string)
    requires edited.id != ""
    ensures RequestFor(user, password, Some(edited.id), Edit).verb == "PUT"
    ensures RequestFor(user, password, Some(edited.id), Edit).url == UsersUrl + "?id=" + edited.id
    ensures RequestFor(user, password, Some(edited.id), Edit).body.password == None
  {
  }

  /** With the mode reset, an add without a password is stopped by the form's own guard and a password is sent. */
  lemma AddModeDemandsPassword(user: Form, password: string)
    ensures !Complete(user, "", Add)
    ensures RequestFor(user, password, None, Add).body.password == Some(password)
  {
  }

  class AdminPage {
    var users: seq<User>
    var user: Form
    var editingUserId: Option<string>
    var password: string
    var searchTerm: string
    var modalIsOpen: bool
    var modalType: ModalType
    var error: Option<string>
    var currentPage: int
    var itemsPerPage: nat

    constructor ()
      ensures users == [] && user == BlankForm && editingUserId == None && password == ""
      ensures searchTerm == "" && !modalIsOpen && modalType == Add && error == None
      ensures currentPage == 1 && itemsPerPage == 5
    {
      users := [];
      user := BlankForm;
      editingUserId := None;
      password := "";
      searchTerm := "";
      modalIsOpen := false;
      modalType := Add;
      error := None;
      currentPage := 1;
      itemsPerPage := 5;
    }

    /** fetchUsers: the route's listing replaces the list. */
    method FetchUsers(data: seq<User>)
      modifies this`users
      ensures users == data
    {
      users := data;
    }

    method HandleSearchChange(term: string)
      modifies this`searchTerm
      ensures searchTerm == term
    {
      searchTerm := term;
    }

    /** The rows on the current page. */
    function DisplayedUsers(): (r: seq<User>)
      reads this`users, this`searchTerm, this`currentPage, this`itemsPerPage
      requires itemsPerPage > 0
      ensures |r| <= itemsPerPage
    {
      Paging.PageSlice(FilterUsers(users, searchTerm), currentPage, itemsPerPage)
    }

    function TotalPages(): (t: nat)
      reads this`users, this`searchTerm, this`itemsPerPage
      requires itemsPerPage > 0
      ensures t * itemsPerPage >= |FilterUsers(users, searchTerm)| && (t == 0 <==> FilterUsers(users, searchTerm) == [])
    {
      Paging.TotalPages(|FilterUsers(users, searchTerm)|, itemsPerPage)
    }

    /**
     * handleSubmit.  An incomplete form sets the error and sends nothing.
     * Otherwise the error is cleared and the request is sent; a refused
     * request leaves the form as it is, an accepted one clears it and
     * closes the modal.  The modal type is never touched.
     */
    method HandleSubmit(ok: bool) returns (sent: Option<Request>)
      modifies this`user, this`password, this`editingUserId, this`error, this`modalIsOpen
      ensures !Complete(old(user), old(password), modalType) ==>
        sent == None && error == Some(Required)
        && user == old(user) && password == old(password) && editingUserId == old(editingUserId)
        && modalIsOpen == old(modalIsOpen)
      ensures Complete(old(user), old(password), modalType) ==>
        sent == Some(RequestFor(old(user), old(password), old(editingUserId), modalType)) && error == None
      ensures Complete(old(user), old(password), modalType) && !ok ==>
        user == old(user) && password == old(password) && editingUserId == old(editingUserId)
        && modalIsOpen == old(modalIsOpen)
      ensures Complete(old(user), old(password), modalType) && ok ==>
        user == BlankForm && password == "" && editingUserId == None && !modalIsOpen
    {
      if !Complete(user, password, modalType) {
        error := Some(Required);
        return None;
      }
      error := None;
      var request := RequestFor(user, password, editingUserId, modalType);
      sent := Some(request);
      if !ok {
        return;
      }
      user := BlankForm;
      password := "";
      editingUserId := None;
      modalIsOpen := false;
    }

    /** handleEdit: the form is filled from the row and opened in edit mode. */
    method HandleEdit(u: User)
      modifies this`user, this`editingUserId, this`modalType, this`modalIsOpen
      ensures user == Form(u.name, u.email, u.kind, u.address)
      ensures editingUserId == Some(u.id) && modalType == Edit && modalIsOpen
    {
      user := Form(u.name, u.email, u.kind, u.address);
      editingUserId := Some(u.id);
      modalType := Edit;
      modalIsOpen := true;
    }

    /** openModal, as the "Add User" button calls it: the mode and the editing id stay as they were. */
    method OpenModal()
      modifies this`modalIsOpen
      ensures modalIsOpen
    {
      modalIsOpen := true;
    }

    /** The "Add User" button with the mode reset: a fresh add, never a PUT. */
    method OpenAddModal()
      modifies this`modalIsOpen, this`modalType, this`editingUserId
      ensures modalIsOpen && modalType == Add && editingUserId == None
    {
      modalIsOpen := true;
      modalType := Add;
      editingUserId := None;
    }

    method CloseModal()
      modifies this`modalIsOpen
      ensures !modalIsOpen
    {
      modalIsOpen := false;
    }
  }
}
