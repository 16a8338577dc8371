/** The login form: the checks made before the credentials are handed to the session store. */
module LoginPage {
  import opened Text

  /** The form errors, in the order in which they are checked. */
  datatype LoginError =
    | Required           // email or password empty
    | InvalidEmail       // the email does not contain an address-like part
    | PasswordTooShort   // fewer than six characters

  const MinPasswordLength := 6

  /**
   * The pattern `\S+@\S+\.\S+` matches a part of `email` whose `@` is at `at` and whose
   * `.` is at `dot`: a non-space character before the `@`, only non-space characters
   * (at least one) between the `@` and the `.`, and a non-space character after the `.`.
   */
  predicate MatchesAt(email: string, at: int, dot: int) {
    1 <= at && at + 1 < dot && dot + 1 < |email|
    && !IsSpace(email[at - 1]) && email[at] == '@'
    && (forall k :: at < k < dot ==> !IsSpace(email[k]))
    && email[dot] == '.' && !IsSpace(email[dot + 1])
  }

  /** `/\S+@\S+\.\S+/.test(email)`: the pattern matches somewhere in `email`. */
  predicate IsEmailLike(email: string) {
    exists at, dot | 0 <= at < |email| && 0 <= dot < |email| :: MatchesAt(email, at, dot)
  }

  /** What submitting the form does. */
  datatype LoginStep =
    | Rejected(error: LoginError)   // the error is shown and nothing is sent
    | CallLogin                    // the session store's login is called with the form's values

  /**
   * `handleSubmit`: the first failing check decides the error; only when all three pass
   * is `login` called.
   */
  function HandleSubmit(email: string, password: string): (r: LoginStep)
    ensures r == Rejected(Required) <==> email == "" || password == ""
    ensures r == Rejected(InvalidEmail) <==> email != "" && password != "" && !IsEmailLike(email)
    ensures r == Rejected(PasswordTooShort) <==>
      email != "" && password != "" && IsEmailLike(email) && |password| < MinPasswordLength
    ensures r == CallLogin <==>
      email != "" && IsEmailLike(email) && |password| >= MinPasswordLength
  {
    if email == "" || password == "" then Rejected(Required)
    else if !IsEmailLike(email) then Rejected(InvalidEmail)
    else if |password| < MinPasswordLength then Rejected(PasswordTooShort)
    else CallLogin
  }

  /**
   * An email that passes the pattern has at least five characters and holds an `@`
   * followed, later, by a `.`.
   */
  lemma EmailLikeShape(email: string)
    requires IsEmailLike(email)
    ensures |email| >= 5
    ensures exists at, dot | 0 <= at < dot < |email| :: email[at] == '@' && email[dot] == '.'
  {
    var at, dot :| 0 <= at < |email| && 0 <= dot < |email| && MatchesAt(email, at, dot);
    assert email[at] == '@' && email[dot] == '.';
  }

  /** Two addresses the pattern accepts and four it rejects. */
  lemma EmailPatternExamples()
    ensures IsEmailLike("ana@mail.com")
    ensures IsEmailLike("x y@a.b")
    ensures !IsEmailLike("ana@mail")
    ensures !IsEmailLike("ana @mail.com")
    ensures !IsEmailLike("@mail.com")
    ensures !IsEmailLike("x\U{3000}@y.z")
  {
    assert MatchesAt("ana@mail.com", 3, 8);
    assert MatchesAt("x y@a.b", 3, 5);
  }
}
