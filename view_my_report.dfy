/**
 * The "View My Report" sign-in: the reporter types the reference code
 * handed out at submission, and the first case document whose id starts
 * with the code's first three characters and ends with its last three is
 * opened.
 */
module ViewMyReport {
  import opened Js
  import opened Session
  import ReportIncident

  const TooShort := "Transaction ID must be at least 6 characters long."
  const NoMatch := "No matching transaction found."
  const Failure := "An error occurred. Please try again."

  /** What `handleLogin` leaves behind: an error message, or the session it stores. */
  datatype Outcome = Error(message: string) | SignedIn(session: ClientSession)

  /** `transactionId.slice(0, 3)`. */
  function Head(code: string): string
  {
    Slice(code, 0, 3)
  }

  /** `transactionId.slice(-3)`. */
  function Tail(code: string): string
  {
    SliceFrom(code, -3)
  }

  /** The document filter: the id starts with the code's head and ends with its tail. */
  function Matches(code: string): string -> bool
  {
    id => StartsWith(id, Head(code)) && EndsWith(id, Tail(code))
  }

  /**
   * `handleLogin`.  `ids` are the ids of the `users` documents in collection
   * order, None when reading the collection fails.
   */
  function Lookup(code: string, ids: Option<seq<string>>): (o: Outcome)
    ensures |code| < 6 ==> o == Error(TooShort)
    ensures o == Error(Failure) <==> |code| >= 6 && ids.None?
    ensures o == Error(NoMatch) <==>
      |code| >= 6 && ids.Some? && forall i :: 0 <= i < |ids.value| ==> !Matches(code)(ids.value[i])
    ensures o.SignedIn? ==>
      && |code| >= 6 && ids.Some? && o.session.uuid in ids.value
      && StartsWith(o.session.uuid, code[..3]) && EndsWith(o.session.uuid, code[|code| - 3..])
      && o.session.kind == Client && o.session.id == code
  {
    if |code| < 6 then Error(TooShort)
    else match ids
      case None => Error(Failure)
      case Some(docs) =>
        var found := Filter(docs, Matches(code));
        FilterMembers(docs, Matches(code));
        if |found| > 0 then
          assert found[0] in docs && Matches(code)(found[0]);
          SliceInRange(code, 0, 3);
          SliceFromNegative(code, 3);
          SignedIn(ClientSession(found[0], Client, code))
        else Error(NoMatch)
  }

  /** The outcome with the stored code replaced. */
  function WithCode(o: Outcome, code: string): Outcome
  {
    match o
    case Error(m) => o
    case SignedIn(s) => SignedIn(s.(id := code))
  }

  /** Only the first and last three characters of the code matter: the middle is never looked at. */
  lemma MiddleIgnored(a: string, b: string, ids: Option<seq<string>>)
    requires |a| >= 6 && |b| >= 6
    requires a[..3] == b[..3] && a[|a| - 3..] == b[|b| - 3..]
    ensures Lookup(a, ids) == WithCode(Lookup(b, ids), a)
  {
    SliceInRange(a, 0, 3);
    SliceInRange(b, 0, 3);
    SliceFromNegative(a, 3);
    SliceFromNegative(b, 3);
    assert Head(a) == Head(b) && Tail(a) == Tail(b);
    assert Matches(a) == Matches(b);
  }

  /** The session opens the first matching document in collection order. */
  lemma FirstMatchWins(code: string, ids: seq<string>)
    requires Lookup(code, Some(ids)).SignedIn?
    ensures exists k :: (0 <= k < |ids| && ids[k] == Lookup(code, Some(ids)).session.uuid &&
      forall j :: 0 <= j < k ==> !Matches(code)(ids[j]))
  {
    FilterFirst(ids, Matches(code));
  }

  /** The reference code of a case with an id of six or more characters finds a case whenever that document exists. */
  lemma RoundTrip(uid: string, ids: seq<string>)
    requires |uid| >= 6 && uid in ids
    ensures Matches(ReportIncident.TransactionId(uid))(uid)
    ensures Lookup(ReportIncident.TransactionId(uid), Some(ids)).SignedIn?
  {
    var code := ReportIncident.TransactionId(uid);
    SliceInRange(code, 0, 3);
    SliceFromNegative(code, 3);
    assert Head(code) == uid[..3];
    assert Tail(code) == uid[|uid| - 3..];
    assert Matches(code)(uid);
    var k :| 0 <= k < |ids| && ids[k] == uid;
    FilterMembers(ids, Matches(code));
    assert uid in Filter(ids, Matches(code));
  }

  /**
   * The code does not identify a case: with a longer id listed first that
   * shares its first and last three characters, the reporter of case
   * "abcdef" is signed in to "abcXYZdef".
   */
  lemma AmbiguousCode()
    ensures ReportIncident.TransactionId("abcdef") == "abcdef"
    ensures Lookup("abcdef", Some(["abcXYZdef", "abcdef"])) == SignedIn(ClientSession("abcXYZdef", Client, "abcdef"))
  {
    var code := "abcdef";
    assert Head(code) == "abc" && Tail(code) == "def";
    assert Matches(code)("abcXYZdef");
  }
}
