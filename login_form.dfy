/** The login form: e-mail and password, the two rules `validate` checks, and the submit
    and change handlers. */
module LoginForm {
  import opened Text
  import opened Wrappers
  import opened Patterns

  datatype Field = Email | Password

  datatype Data = Data(email: string, password: string)

  const Empty := Data("", "")

  /** The error record `{ email?, password? }`. */
  datatype Errors = Errors(email: Option<string>, password: Option<string>)

  const NoErrors := Errors(None, None)

  /** Only the empty string is "required" (no trimming); anything else needs an
      x `@` y `.` z run somewhere in it, the pattern /\S+@\S+\.\S+/ being unanchored. */
  function EmailError(v: string): Option<string> {
    if v == [] then Some("Email is required.")
    else if !LoginEmail(v) then Some("Invalid email format.")
    else None
  }

  /** Empty is "required"; otherwise at least six characters. */
  function PasswordError(v: string): Option<string> {
    if v == [] then Some("Password is required.")
    else if |v| < 6 then Some("Password must be at least 6 characters.")
    else None
  }

  function Check(d: Data): Errors {
    Errors(EmailError(d.email), PasswordError(d.password))
  }

  predicate Accepted(e: Errors) {
    e.email.None? && e.password.None?
  }

  /** Login is accepted exactly when some stretch of the e-mail field reads x `@` y `.` z
      (x, y, z non-empty, no white space) and the password has six characters or more. */
  lemma AcceptedIff(d: Data)
    ensures Accepted(Check(d)) <==> (exists i, j :: LoginEmailAt(d.email, i, j)) && |d.password| >= 6
  {
    LoginEmailIff(d.email);
  }

  /** An address with white space around it is still accepted: any text before and after
      an address the appointment form takes is allowed. */
  lemma SurroundingTextAccepted(v: string, pre: string, post: string)
    requires AppointmentEmail(v)
    ensures EmailError(pre + v + post).None?
  {
    AppointmentEmailImpliesLoginEmail(v, pre, post);
  }

  class Page {
    var data: Data
    var errors: Errors
    var loggedIn: bool
    var showPassword: bool

    constructor ()
      ensures data == Empty && errors == NoErrors && !loggedIn && !showPassword
    {
      data := Empty;
      errors := NoErrors;
      loggedIn := false;
      showPassword := false;
    }

    /** validate: the two checks in order, the record stored, and whether it is empty. */
    method Validate() returns (ok: bool)
      modifies this
      ensures errors == Check(old(data)) && data == old(data)
      ensures loggedIn == old(loggedIn) && showPassword == old(showPassword)
      ensures ok <==> Accepted(errors)
    {
      var e := NoErrors;
      if data.email == [] {
        e := e.(email := Some("Email is required."));
      } else if !LoginEmail(data.email) {
        e := e.(email := Some("Invalid email format."));
      }
      if data.password == [] {
        e := e.(password := Some("Password is required."));
      } else if |data.password| < 6 {
        e := e.(password := Some("Password must be at least 6 characters."));
      }
      errors := e;
      ok := Accepted(e);
    }

    /** handleSubmit: on success the page shows it is logged in and both fields are
        cleared (the redirect that follows is not modelled). */
    method Submit()
      modifies this
      ensures errors == Check(old(data)) && showPassword == old(showPassword)
      ensures Accepted(Check(old(data))) ==> data == Empty && loggedIn
      ensures !Accepted(Check(old(data))) ==> data == old(data) && loggedIn == old(loggedIn)
    {
      var ok := Validate();
      if ok {
        loggedIn := true;
        data := Empty;
      }
    }

    /** handleChange: only the field changes; errors stay on screen until the next
        submit. */
    method Change(f: Field, v: string)
      modifies this
      ensures data == (if f == Email then old(data).(email := v) else old(data).(password := v))
      ensures errors == old(errors) && loggedIn == old(loggedIn) && showPassword == old(showPassword)
    {
      if f == Email {
        data := data.(email := v);
      } else {
        data := data.(password := v);
      }
    }

    /** The eye button. */
    method ToggleShowPassword()
      modifies this
      ensures showPassword == !old(showPassword)
      ensures data == old(data) && errors == old(errors) && loggedIn == old(loggedIn)
    {
      showPassword := !showPassword;
    }
  }
}
