/** The login form: the required-fields guard and error clearing. */

module Login {
  import opened Text

  const CREDENTIALS_REQUIRED: string := "Email and password are required."

  /** A login request: the email and password exactly as typed. */
  datatype Credentials = Credentials(email: string, password: string)

  /** The form's `email`, `password` and `error` state. */
  class LoginForm {
    var email: string
    var password: string
    var error: string
    /** Every login request made, in order. */
    var loginCalls: seq<Credentials>

    constructor ()
      ensures email == "" && password == "" && error == "" && loginCalls == []
    {
      email, password, error, loginCalls := "", "", "", [];
    }

    /**
     * Submitting: a blank (after trimming) email or password shows the message
     * and makes no request; otherwise the message clears and the untrimmed
     * values are sent.
     */
    method HandleLogin()
      modifies this
      ensures !(IsFilled(email) && IsFilled(password)) ==> error == CREDENTIALS_REQUIRED && loginCalls == old(loginCalls)
      ensures IsFilled(email) && IsFilled(password) ==>
        error == "" && loginCalls == old(loginCalls) + [Credentials(email, password)]
      ensures email == old(email) && password == old(password)
    {
      if Trim(email) == "" || Trim(password) == "" {
        error := CREDENTIALS_REQUIRED;
        return;
      }
      error := "";
      loginCalls := loginCalls + [Credentials(email, password)];
    }

    method SetEmail(v: string)
      modifies this
      ensures email == v && error == ""
      ensures password == old(password) && loginCalls == old(loginCalls)
    {
      error := "";
      email := v;
    }

    method SetPassword(v: string)
      modifies this
      ensures password == v && error == ""
      ensures email == old(email) && loginCalls == old(loginCalls)
    {
      error := "";
      password := v;
    }
  }

  /** The guard lets a request through exactly when both fields hold a non-white-space character. */
  lemma LoginGuardIff(email: string, password: string)
    ensures (Trim(email) != "" && Trim(password) != "") <==>
      (exists i :: 0 <= i < |email| && !IsWhitespace(email[i])) && (exists j :: 0 <= j < |password| && !IsWhitespace(password[j]))
  {
    IsFilledIff(email);
    IsFilledIff(password);
  }
}
