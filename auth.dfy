/** The login/register form (src/pages/Auth.jsx). The username field is
    lower-cased as it is typed; on submit the registration rules are
    checked only in register mode, and then a request is sent. The request
    itself and what follows its answer are not modelled. */
module Auth {
  import opened TextUtil
  import Server

  const UsernameError: string := "Username must be at least 6 characters and contain both letters and digits."
  const PasswordError: string :=
    "Password must be at least 8 characters and contain letters, digits, and a special character (@, #, $, %, &)."

  datatype Endpoint = Login | Register

  /** The body sent to `/api/auth/login` or `/api/auth/register`. */
  datatype Request = Request(endpoint: Endpoint, username: string, password: string)

  datatype FormState = FormState(isLogin: bool, username: string, password: string, error: string)

  /** The username input's `onChange`: the typed value, lower-cased. */
  function OnUsernameInput(s: FormState, value: string): (r: FormState)
    ensures r.username == ToLower(value) && ToLower(r.username) == r.username
    ensures r.isLogin == s.isLogin && r.password == s.password && r.error == s.error
  {
    ToLowerIdempotent(value);
    s.(username := ToLower(value))
  }

  /** Both inputs are `required`: the browser fires `submit` only when
      neither field is empty. */
  predicate CanSubmit(s: FormState)
  {
    s.username != "" && s.password != ""
  }

  /** Submitting the form: with an empty field the browser blocks it and
      nothing happens; otherwise `handleSubmit` up to the request. The two
      patterns are, character for character, the server's
      (`Server.UsernameOk`, `Server.PasswordOk`). */
  function Submit(s: FormState): (r: (FormState, Option<Request>))
    ensures !CanSubmit(s) ==> r == (s, None)
    ensures r.0 == s.(error := r.0.error)
    ensures s.isLogin && CanSubmit(s) ==> r == (s.(error := ""), Some(Request(Login, s.username, s.password)))
    ensures !s.isLogin ==> (r.1.Some? <==> Server.UsernameOk(s.username) && Server.PasswordOk(s.password))
    ensures !s.isLogin && CanSubmit(s) && !Server.UsernameOk(s.username) ==> r.0.error == UsernameError
    ensures !s.isLogin && CanSubmit(s) && Server.UsernameOk(s.username) && !Server.PasswordOk(s.password)
            ==> r.0.error == PasswordError
    ensures r.1.Some? ==> r.0.error == "" && r.1.value.username == s.username && r.1.value.password == s.password
    ensures r.1.Some? ==> r.1.value.endpoint == if s.isLogin then Login else Register
  {
    if !CanSubmit(s) then (s, None)
    else if !s.isLogin && !Server.UsernameOk(s.username) then (s.(error := UsernameError), None)
    else if !s.isLogin && !Server.PasswordOk(s.password) then (s.(error := PasswordError), None)
    else (s.(error := ""), Some(Request(if s.isLogin then Login else Register, s.username, s.password)))
  }

  /** Whatever the form sends to the register endpoint passes the server's
      own checks and is stored under the name as typed, because the field
      only ever holds lower-case text. And the server accepts nothing the
      form would have refused. */
  lemma ClientAgreesWithServer(s: FormState)
    requires !s.isLogin && ToLower(s.username) == s.username
    ensures Submit(s).1.Some? <==> Server.RegisterChecks(s.username, s.password).Accepted?
    ensures Submit(s).1.Some? ==> Server.RegisterChecks(s.username, s.password).username == s.username
  {
  }

  /** Login sends whatever was typed into two non-empty fields, without any
      other check; with an empty field nothing is sent. */
  lemma LoginUnchecked(s: FormState)
    requires s.isLogin
    ensures Submit(s).1 == if CanSubmit(s) then Some(Request(Login, s.username, s.password)) else None
  {
  }

  /** Upper-case letters typed into the field cannot make a registration
      fail: they arrive lower-cased. */
  lemma TypedCaseIrrelevant(s: FormState, value: string)
    requires !s.isLogin
    ensures Submit(OnUsernameInput(s, value)).1.Some? <==>
              Server.UsernameOk(ToLower(value)) && Server.PasswordOk(s.password)
  {
  }

  /** The form's state fields. */
  class AuthForm {
    var isLogin: bool
    var username: string
    var password: string
    var error: string

    function State(): FormState
      reads this
    {
      FormState(isLogin, username, password, error)
    }

    /** The username field holds lower-case text only. */
    predicate Valid()
      reads this
    {
      ToLower(username) == username
    }

    constructor ()
      ensures State() == FormState(true, "", "", "") && Valid()
    {
      isLogin, username, password, error := true, "", "", "";
    }

    method OnUsernameChange(value: string)
      modifies this
      ensures State() == OnUsernameInput(old(State()), value) && Valid()
    {
      ToLowerIdempotent(value);
      username := ToLower(value);
    }

    method OnPasswordChange(value: string)
      modifies this
      requires Valid()
      ensures State() == old(State()).(password := value) && Valid()
    {
      password := value;
    }

    /** The link under the form switches between login and register. */
    method ToggleMode()
      modifies this
      requires Valid()
      ensures State() == old(State()).(isLogin := !old(isLogin)) && Valid()
    {
      isLogin := !isLogin;
    }

    method HandleSubmit() returns (request: Option<Request>)
      modifies this
      requires Valid()
      ensures (State(), request) == Submit(old(State())) && Valid()
    {
      if username == "" || password == "" {
        return None;
      }
      error := "";
      if !isLogin {
        if !Server.UsernameOk(username) {
          error := UsernameError;
          return None;
        }
        if !Server.PasswordOk(password) {
          error := PasswordError;
          return None;
        }
      }
      request := Some(Request(if isLogin then Login else Register, username, password));
    }
  }
}
