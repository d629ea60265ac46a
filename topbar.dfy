/**
 * The page header.  It greets a client with the masked reporter name,
 * through its own copy of the client page's `maskName`.
 */
module Topbar {
  import opened Js
  import MyReport

  /** The header's part mask: short parts stay, longer ones keep their ends around '*'s. */
  function MaskPart(part: string): string
  {
    if |part| <= 2 then part else [part[0]] + Repeat('*', |part| - 2) + [part[|part| - 1]]
  }

  /** Topbar's `maskName`, written again in the header. */
  function MaskName(name: Option<string>): (r: string)
    ensures name.None? || name == Some("") ==> r == ""
  {
    if name.None? || name.value == "" then ""
    else
      var parts := Split(name.value, ' ');
      Join(seq(|parts|, k requires 0 <= k < |parts| => MaskPart(parts[k])), ' ')
  }

  /** The header's copy computes the same mask as the client page's. */
  lemma SameAsClientPage(name: Option<string>)
    ensures MaskName(name) == MyReport.MaskName(name)
  {
    if name.Some? && name.value != "" {
      var parts := Split(name.value, ' ');
      var mine := seq(|parts|, k requires 0 <= k < |parts| => MaskPart(parts[k]));
      assert mine == MyReport.MaskParts(parts);
    }
  }

  /** The fields of the case document the header reads. */
  datatype UserData = UserData(name: string, reportee: Option<string>, status: string)

  /**
   * The greeting: "Loading..." until the document is read, the masked
   * reporter for a client session, the account name for staff.
   */
  function Greeting(user: Option<UserData>, kind: string): (g: string)
    ensures user.None? ==> g == "Loading..."
  {
    if user.None? then "Loading..."
    else if kind == "client" then "Hi, " + MaskName(user.value.reportee) + " \U{1F44B}"
    else "Hi, " + user.value.name + " \U{1F44B}"
  }

  /** A client is greeted with a name that is already masked: masking it again changes nothing. */
  lemma ClientGreetingIsMasked(user: UserData)
    ensures var shown := MaskName(user.reportee);
      Greeting(Some(user), "client") == "Hi, " + shown + " \U{1F44B}" && MyReport.MaskName(Some(shown)) == shown
  {
    SameAsClientPage(user.reportee);
    MyReport.MaskNameIdempotent(user.reportee);
  }
}
