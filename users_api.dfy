/**
 * The `/api/users` route: it lists, creates, updates and deletes staff
 * accounts, each an authentication account plus a document in the `users`
 * collection.  Each backend call the handler makes is a `Call`; the
 * environment says which call, if any, throws (`failAt`), so a handler's
 * outcome is its response together with the calls it made, in order.
 * Request bodies hold strings; an absent key or "" is falsy.
 */
module UsersApi {
  import opened Js
  import Firestore

  type Body = map<string, string>
  type Doc = (string, Firestore.Fields)

  /** `req.query.id`: absent, one string, or repeated. */
  datatype Query = Absent | One(value: string) | Many(values: seq<string>)

  datatype Request = Request(verb: string, id: Query, body: Body)

  datatype Call =
    | QueryStaff
    | CreateAccount(email: string, password: string, displayName: string)
    | SetDoc(id: string, fields: Firestore.Fields)
    | UpdateAccount(uid: string, email: string, displayName: string)
    | UpdateDoc(id: string, fields: Firestore.Fields)
    | ReadDoc(id: string)
    | DeleteAccount(uid: string)
    | DeleteDoc(id: string)

  /** The collection in query order, the uid a new account receives, and the index of the call that throws. */
  datatype Env = Env(docs: seq<Doc>, newUid: string, failAt: nat)

  datatype Response = Response(status: nat, allow: seq<string>, users: seq<Doc>)

  datatype Outcome = Outcome(response: Response, calls: seq<Call>)

  const Methods := ["GET", "POST", "PUT", "DELETE"]
  const StaffTypes := ["admin", "barangay"]

  predicate Falsy(body: Body, key: string)
  {
    key !in body || body[key] == ""
  }

  function Status(status: nat): Response
  {
    Response(status, [], [])
  }

  /**
   * Makes the calls in order until the one at index failAt throws; a
   * thrown call answers 500, otherwise the handler answers okStatus.
   */
  function Run(calls: seq<Call>, failAt: nat, okStatus: nat): (o: Outcome)
    ensures failAt < |calls| ==> o == Outcome(Status(500), calls[..failAt + 1])
    ensures failAt >= |calls| ==> o == Outcome(Status(okStatus), calls)
  {
    if failAt < |calls| then Outcome(Status(500), calls[..failAt + 1]) else Outcome(Status(okStatus), calls)
  }

  // ---------------------------------------------------------------------
  // GET

  function IsStaff(d: Doc): bool
  {
    Firestore.Get(d.1, "type") in StaffTypes
  }

  /** getUsers: the documents whose type is admin or barangay. */
  function GetUsers(env: Env): (o: Outcome)
    ensures o.calls == [QueryStaff]
    ensures o.response.status == 200 <==> env.failAt > 0
    ensures o.response.status == 200 ==> o.response.users == Filter(env.docs, IsStaff)
    ensures o.response.status != 200 ==> o.response.status == 500 && o.response.users == []
  {
    if env.failAt == 0 then Outcome(Status(500), [QueryStaff])
    else Outcome(Response(200, [], Filter(env.docs, IsStaff)), [QueryStaff])
  }

  /** The listing holds exactly the staff documents, in query order. */
  lemma ListingIsStaff(env: Env)
    requires env.failAt > 0
    ensures forall k :: 0 <= k < |GetUsers(env).response.users| ==>
      GetUsers(env).response.users[k] in env.docs && Firestore.Get(GetUsers(env).response.users[k].1, "type") in StaffTypes
    ensures forall k :: 0 <= k < |env.docs| && Firestore.Get(env.docs[k].1, "type") in StaffTypes ==>
      env.docs[k] in GetUsers(env).response.users
  {
    FilterMembers(env.docs, IsStaff);
  }

  // ---------------------------------------------------------------------
  // POST

  predicate AddComplete(body: Body)
  {
    !Falsy(body, "email") && !Falsy(body, "password") && !Falsy(body, "fullName")
    && !Falsy(body, "name") && !Falsy(body, "type") && !Falsy(body, "address")
  }

  /** addUser: the account, then its document keyed by the new uid. */
  function AddUser(body: Body, env: Env): (o: Outcome)
    ensures o.response.status == 400 <==> !AddComplete(body)
    ensures o.response.status == 400 ==> o.calls == []
    ensures o.response.status == 201 <==> AddComplete(body) && env.failAt >= 2
    ensures o.response.status in {201, 400, 500}
    ensures AddComplete(body) ==> |o.calls| >= 1 && o.calls[0] == CreateAccount(body["email"], body["password"], body["fullName"])
  {
    if !AddComplete(body) then Outcome(Status(400), [])
    else
      var uid := env.newUid;
      var doc := map["uid" := uid, "email" := body["email"], "fullName" := body["fullName"],
                     "name" := body["name"], "type" := body["type"], "address" := body["address"]];
      Run([CreateAccount(body["email"], body["password"], body["fullName"]), SetDoc(uid, doc)], env.failAt, 201)
  }

  /** A created document is keyed by the account's uid and records it, and it never stores the password. */
  lemma CreatedDocument(body: Body, env: Env)
    requires AddUser(body, env).response.status == 201
    ensures |AddUser(body, env).calls| == 2
    ensures AddUser(body, env).calls[1].SetDoc?
    ensures AddUser(body, env).calls[1].id == env.newUid
    ensures AddUser(body, env).calls[1].fields["uid"] == env.newUid
    ensures "password" !in AddUser(body, env).calls[1].fields
  {
  }

  // ---------------------------------------------------------------------
  // PUT

  predicate EditComplete(body: Body)
  {
    !Falsy(body, "email") && !Falsy(body, "fullName") && !Falsy(body, "name")
    && !Falsy(body, "type") && !Falsy(body, "address")
  }

  /** editUser: the account's email and display name, then the document's fields. */
  function EditUser(id: Query, body: Body, env: Env): (o: Outcome)
    ensures o.response.status == 400 <==> !id.One? || !EditComplete(body)
    ensures o.response.status == 400 ==> o.calls == []
    ensures o.response.status == 200 <==> id.One? && EditComplete(body) && env.failAt >= 2
    ensures o.response.status in {200, 400, 500}
  {
    if !id.One? || !EditComplete(body) then Outcome(Status(400), [])
    else
      var fields := map["email" := body["email"], "fullName" := body["fullName"], "name" := body["name"],
                        "type" := body["type"], "address" := body["address"]];
      Run([UpdateAccount(id.value, body["email"], body["fullName"]), UpdateDoc(id.value, fields)], env.failAt, 200)
  }

  /** An update neither needs nor reads a password. */
  lemma EditIgnoresPassword(id: Query, body: Body, env: Env)
    ensures EditUser(id, body, env) == EditUser(id, body - {"password"}, env)
  {
    var b := body - {"password"};
    assert forall k :: k != "password" ==> (k in body <==> k in b);
    if id.One? && EditComplete(body) {
      assert body["email"] == b["email"] && body["fullName"] == b["fullName"] && body["name"] == b["name"];
      assert body["type"] == b["type"] && body["address"] == b["address"];
    }
  }

  // ---------------------------------------------------------------------
  // DELETE

  /** The first document with this id, if any. */
  function Find(docs: seq<Doc>, id: string): (r: Option<Firestore.Fields>)
    ensures r.None? <==> forall k :: 0 <= k < |docs| ==> docs[k].0 != id
    ensures r.Some? ==> (id, r.value) in docs
  {
    if docs == [] then None
    else if docs[0].0 == id then Some(docs[0].1)
    else Find(docs[1..], id)
  }

  /** deleteUser: read the document, delete its account when it records a uid, then delete it. */
  function DeleteUser(id: Query, env: Env): (o: Outcome)
    ensures o.response.status == 400 <==> !id.One?
    ensures o.response.status == 400 ==> o.calls == []
    ensures o.response.status == 404 <==> id.One? && env.failAt > 0 && Find(env.docs, id.value).None?
    ensures o.response.status in {204, 400, 404, 500}
  {
    if !id.One? then Outcome(Status(400), [])
    else if env.failAt == 0 then Outcome(Status(500), [ReadDoc(id.value)])
    else match Find(env.docs, id.value)
      case None => Outcome(Status(404), [ReadDoc(id.value)])
      case Some(doc) =>
        var uid := Firestore.Get(doc, "uid");
        var rest := (if uid != "" then [DeleteAccount(uid)] else []) + [DeleteDoc(id.value)];
        var r := Run(rest, env.failAt - 1, 204);
        Outcome(r.response, [ReadDoc(id.value)] + r.calls)
  }

  /**
   * An account is deleted only when the document records a uid, and then
   * it is that account; a completed delete removed the document, and its
   * account whenever a uid was recorded.
   */
  lemma DeleteTouchesRecordedAccount(id: Query, env: Env, uid: string)
    ensures DeleteAccount(uid) in DeleteUser(id, env).calls ==>
      id.One? && Find(env.docs, id.value).Some? && uid != "" && Firestore.Get(Find(env.docs, id.value).value, "uid") == uid
    ensures DeleteUser(id, env).response.status == 204 ==> DeleteDoc(id.value) in DeleteUser(id, env).calls
    ensures DeleteUser(id, env).response.status == 204 && Firestore.Get(Find(env.docs, id.value).value, "uid") != "" ==>
      DeleteAccount(Firestore.Get(Find(env.docs, id.value).value, "uid")) in DeleteUser(id, env).calls
  {
    var o := DeleteUser(id, env);
    if id.One? && env.failAt > 0 && Find(env.docs, id.value).Some? {
      var doc := Find(env.docs, id.value).value;
      var u := Firestore.Get(doc, "uid");
      var rest := (if u != "" then [DeleteAccount(u)] else []) + [DeleteDoc(id.value)];
      var r := Run(rest, env.failAt - 1, 204);
      assert o.calls == [ReadDoc(id.value)] + r.calls;
      if DeleteAccount(uid) in o.calls {
        assert DeleteAccount(uid) in r.calls;
        assert DeleteAccount(uid) in rest;
      }
      if o.response.status == 204 {
        assert r.calls == rest;
        assert rest[|rest| - 1] == DeleteDoc(id.value);
        if u != "" {
          assert rest[0] == DeleteAccount(u);
        }
      }
    }
  }

  // ---------------------------------------------------------------------
  // Dispatch

  /** handler: the method picks the handler; any other method is refused with 405 and an Allow list. */
  function Handler(req: Request, env: Env): (o: Outcome)
    ensures req.verb !in Methods ==> o == Outcome(Response(405, Methods, []), [])
  {
    if req.verb == "GET" then GetUsers(env)
    else if req.verb == "POST" then AddUser(req.body, env)
    else if req.verb == "PUT" then EditUser(req.id, req.body, env)
    else if req.verb == "DELETE" then DeleteUser(req.id, env)
    else Outcome(Response(405, Methods, []), [])
  }

  /** 405 is answered exactly to the other methods; the four handlers never answer it. */
  lemma MethodNotAllowedExactly(req: Request, env: Env)
    ensures Handler(req, env).response.status == 405 <==> req.verb !in Methods
    ensures Handler(req, env).response.status == 405 ==> Handler(req, env).response.allow == Methods
  {
    if req.verb == "GET" {
      assert GetUsers(env).response.status in {200, 500};
    }
  }

  /** A request refused for its input (400, 404 or 405) changes nothing: it makes no write. */
  lemma RefusedRequestsWriteNothing(req: Request, env: Env)
    requires Handler(req, env).response.status in {400, 404, 405}
    ensures forall k :: 0 <= k < |Handler(req, env).calls| ==> Handler(req, env).calls[k].ReadDoc?
  {
  }
}
