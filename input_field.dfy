/**
 * The shared form input: it validates its value when it loses focus, and
 * on every change after that, and shows the message only once touched.
 * The rules run in a fixed order and each applicable rule overwrites the
 * message, so the last applicable rule wins.
 */
module InputField {
  import opened Js

  datatype Kind = Text | Email | Password | Number

  const EmailMessage := "Invalid email address"
  const PasswordMessage := "Password must be at least 6 characters"
  const NumberMessage := "Please enter a valid number"

  function RequiredMessage(title: string): string
  {
    title + " is required"
  }

  // ---------------------------------------------------------------------
  // The email pattern /\S+@\S+\.\S+/

  /** `\s`: the whitespace and line terminators of ECMAScript regular expressions. */
  predicate IsSpace(c: char)
  {
    c == '\t' || c == '\n' || c == '\U{000B}' || c == '\U{000C}' || c == '\r' || c == ' '
    || c == '\U{00A0}' || c == '\U{1680}' || ('\U{2000}' <= c <= '\U{200A}')
    || c == '\U{2028}' || c == '\U{2029}' || c == '\U{202F}' || c == '\U{205F}'
    || c == '\U{3000}' || c == '\U{FEFF}'
  }

  ghost predicate NoSpace(t: string)
  {
    forall k :: 0 <= k < |t| ==> !IsSpace(t[k])
  }

  /** t is `\S+@\S+\.\S+` as a whole: cut at an '@' and a later '.', three non-empty space-free parts. */
  ghost predicate Shape(t: string)
  {
    exists a, b :: Cut(t, a, b)
  }

  /** t is x + "@" + y + "." + z with x = t[..a], y = t[a+1..b], z = t[b+1..], each non-empty and space-free. */
  ghost predicate Cut(t: string, a: int, b: int)
  {
    0 < a && a + 1 < b && b + 1 < |t| && t[a] == '@' && t[b] == '.'
    && NoSpace(t[..a]) && NoSpace(t[a + 1..b]) && NoSpace(t[b + 1..])
  }

  /** `test` of the unanchored pattern: some substring has the shape. */
  ghost predicate PatternMatches(s: string)
  {
    exists i, j :: 0 <= i <= j <= |s| && Shape(s[i..j])
  }

  /** No space strictly between positions lo and hi. */
  predicate SpaceFreeBetween(s: string, lo: int, hi: int)
  {
    forall m :: lo < m < hi && 0 <= m < |s| ==> !IsSpace(s[m])
  }

  /** An '@' at `at` and a '.' at `dot`, a non-space just before the one and just after the other, only non-spaces between. */
  predicate Witness(s: string, at: int, dot: int)
  {
    0 < at && at + 1 < dot && dot + 1 < |s|
    && s[at] == '@' && s[dot] == '.' && !IsSpace(s[at - 1]) && !IsSpace(s[dot + 1])
    && SpaceFreeBetween(s, at, dot)
  }

  /** The test as the input performs it: some '@' and later '.' that are a witness. */
  predicate EmailTest(s: string)
  {
    exists at, dot | 0 <= at < |s| && 0 <= dot < |s| :: Witness(s, at, dot)
  }

  /** The local check is exactly the pattern's semantics. */
  lemma EmailTestIsPattern(s: string)
    ensures EmailTest(s) <==> PatternMatches(s)
  {
    if EmailTest(s) {
      var at, dot :| 0 <= at < |s| && 0 <= dot < |s| && Witness(s, at, dot);
      WitnessMatches(s, at, dot);
    }
    if PatternMatches(s) {
      var i, j :| 0 <= i <= j <= |s| && Shape(s[i..j]);
      ShapeGivesWitness(s, i, j);
    }
  }

  /** The substring from one before the '@' to one after the '.' has the shape. */
  lemma WitnessMatches(s: string, at: int, dot: int)
    requires Witness(s, at, dot)
    ensures PatternMatches(s)
  {
    var t := s[at - 1..dot + 2];
    var a, b := 1, dot - at + 1;
    assert t[a] == '@' && t[b] == '.';
    assert NoSpace(t[..a]) by { assert t[..a] == [s[at - 1]]; }
    var mid := t[a + 1..b];
    assert NoSpace(mid) by {
      forall k | 0 <= k < |mid| ensures !IsSpace(mid[k]) {
        assert mid[k] == s[at + 1 + k];
      }
    }
    assert NoSpace(t[b + 1..]) by { assert t[b + 1..] == [s[dot + 1]]; }
    assert Cut(t, a, b);
  }

  /** A substring with the shape has an '@' and a '.' that pass the local check. */
  lemma ShapeGivesWitness(s: string, i: int, j: int)
    requires 0 <= i <= j <= |s| && Shape(s[i..j])
    ensures EmailTest(s)
  {
    var a, b :| Cut(s[i..j], a, b);
    CutGivesWitness(s, i, j, a, b);
  }

  lemma CutGivesWitness(s: string, i: int, j: int, a: int, b: int)
    requires 0 <= i <= j <= |s| && Cut(s[i..j], a, b)
    ensures Witness(s, i + a, i + b)
  {
    var t := s[i..j];
    var at, dot := i + a, i + b;
    assert s[at] == '@' && s[dot] == '.';
    assert t[..a][a - 1] == s[at - 1];
    assert t[b + 1..][0] == s[dot + 1];
    var mid := t[a + 1..b];
    forall m | at < m < dot && 0 <= m < |s| ensures !IsSpace(s[m]) {
      assert mid[m - at - 1] == s[m];
    }
  }

  // ---------------------------------------------------------------------
  // The rules

  /**
   * The message validate leaves, stated rule by rule from the last one
   * back: the first applicable rule of this list is the one that wins.
   */
  function ErrorFor(title: string, kind: Kind, required: bool, value: string, toNumber: string -> JsNumber): Option<string>
  {
    if kind == Number && value != "" && toNumber(value).NaN? then Some(NumberMessage)
    else if kind == Password && |value| < 6 then Some(PasswordMessage)
    else if kind == Email && value != "" && !EmailTest(value) then Some(EmailMessage)
    else if required && value == "" then Some(RequiredMessage(title))
    else None
  }

  /** A short password always ends with the password message, even when it is empty and required. */
  lemma ShortPasswordWins(title: string, required: bool, value: string, toNumber: string -> JsNumber)
    requires |value| < 6
    ensures ErrorFor(title, Password, required, value, toNumber) == Some(PasswordMessage)
  {
  }

  /** An empty required field reports the title unless it is a password, whose rule overrides it. */
  lemma EmptyRequired(title: string, kind: Kind, toNumber: string -> JsNumber)
    ensures kind != Password ==> ErrorFor(title, kind, true, "", toNumber) == Some(RequiredMessage(title))
    ensures kind == Password ==> ErrorFor(title, kind, true, "", toNumber) == Some(PasswordMessage)
  {
  }

  /** The email rule ignores an empty value and otherwise fails exactly when the pattern does not match. */
  lemma EmailRule(title: string, required: bool, value: string, toNumber: string -> JsNumber)
    ensures value == "" ==>
      (ErrorFor(title, Email, required, value, toNumber) == if required then Some(RequiredMessage(title)) else None)
    ensures value != "" ==> (ErrorFor(title, Email, required, value, toNumber) == Some(EmailMessage) <==> !PatternMatches(value))
  {
    EmailTestIsPattern(value);
  }

  /** No message exactly when every applicable rule passes. */
  lemma NoErrorIffAllPass(title: string, kind: Kind, required: bool, value: string, toNumber: string -> JsNumber)
    ensures ErrorFor(title, kind, required, value, toNumber).None? <==>
      !(required && value == "")
      && !(kind == Email && value != "" && !PatternMatches(value))
      && !(kind == Password && |value| < 6)
      && !(kind == Number && value != "" && toNumber(value).NaN?)
  {
    EmailTestIsPattern(value);
  }

  class Field {
    const title: string
    const kind: Kind
    const required: bool
    var errorMessage: Option<string>
    var touched: bool

    /** Nothing is validated before the first blur. */
    predicate Valid()
      reads this`touched, this`errorMessage
    {
      !touched ==> errorMessage.None?
    }

    constructor (title: string, kind: Kind, required: bool)
      ensures this.title == title && this.kind == kind && this.required == required
      ensures errorMessage.None? && !touched && Valid()
    {
      this.title := title;
      this.kind := kind;
      this.required := required;
      errorMessage := None;
      touched := false;
    }

    /** validate: the rules in order; a later applicable rule overwrites an earlier message. */
    method Validate(value: string, toNumber: string -> JsNumber)
      modifies this`errorMessage
      ensures errorMessage == ErrorFor(title, kind, required, value, toNumber)
    {
      var error: Option<string> := None;
      if required && value == "" {
        error := Some(RequiredMessage(title));
      }
      if kind == Email && value != "" && !EmailTest(value) {
        error := Some(EmailMessage);
      }
      if kind == Password && |value| < 6 {
        error := Some(PasswordMessage);
      }
      if kind == Number && value != "" && toNumber(value).NaN? {
        error := Some(NumberMessage);
      }
      errorMessage := error;
    }

    method HandleBlur(value: string, toNumber: string -> JsNumber)
      modifies this`touched, this`errorMessage
      ensures touched && Valid()
      ensures errorMessage == ErrorFor(title, kind, required, value, toNumber)
    {
      touched := true;
      Validate(value, toNumber);
    }

    /** handleChange: the parent stores the value; the field revalidates only once touched. */
    method HandleChange(value: string, toNumber: string -> JsNumber)
      requires Valid()
      modifies this`errorMessage
      ensures Valid()
      ensures !touched ==> errorMessage == old(errorMessage)
      ensures touched ==> errorMessage == ErrorFor(title, kind, required, value, toNumber)
    {
      if touched {
        Validate(value, toNumber);
      }
    }

    /** The message under the input: only once touched, and only a non-empty one. */
    function Shown(): (m: Option<string>)
      reads this`touched, this`errorMessage
      ensures m.Some? ==> touched && m == errorMessage
      ensures touched && errorMessage.Some? && errorMessage.value != "" ==> m == errorMessage
    {
      if touched && errorMessage.Some? && errorMessage.value != "" then errorMessage else None
    }
  }
}
