/** The login page: an email/password draft, and a submit that signs in
    only on an ok reply. */
module Login {
  import opened Values

  const LOGIN_FAILED := "Login failed"
  const AFTER_LOGIN := "/dashboard"

  datatype LoginDraft = LoginDraft(email: string, password: string)

  datatype LoginInput = SetEmail(email: string) | SetPassword(password: string)

  /** The body of an ok reply. */
  datatype LoginData = LoginData(user: User, token: string)

  /** What a submit ends in: `onLogin(user, token)` and a move to the
      dashboard, or an error message on the page. */
  datatype Outcome = SignedIn(user: User, token: string) | Failed(error: string)

  function WithInput(d: LoginDraft, input: LoginInput): (r: LoginDraft)
    ensures input.SetEmail? ==> r == d.(email := input.email)
    ensures input.SetPassword? ==> r == d.(password := input.password)
  {
    match input
    case SetEmail(v) => d.(email := v)
    case SetPassword(v) => d.(password := v)
  }

  /** The browser submits the form only when both `required` inputs are
      filled in. */
  predicate Submittable(d: LoginDraft) {
    d.email != "" && d.password != ""
  }

  /** The empty form cannot be submitted; filling in both fields makes it
      submittable, in either order. */
  lemma SubmitNeedsBothFields(email: string, password: string)
    ensures !Submittable(LoginDraft("", ""))
    ensures Submittable(WithInput(WithInput(LoginDraft("", ""), SetEmail(email)), SetPassword(password)))
      <==> email != "" && password != ""
    ensures WithInput(WithInput(LoginDraft("", ""), SetEmail(email)), SetPassword(password)) ==
      WithInput(WithInput(LoginDraft("", ""), SetPassword(password)), SetEmail(email))
  {
  }

  /** `onLogin` is called exactly for an ok reply, with its user and token;
      any other reply shows the server's message or "Login failed", never an
      empty error. */
  function SubmitOutcome(reply: Reply<LoginData>): (o: Outcome)
    ensures o.SignedIn? <==> reply.Ok?
    ensures reply.Ok? ==> o == SignedIn(reply.value.user, reply.value.token)
    ensures reply.Err? ==> o.error == OrElse(reply.message, LOGIN_FAILED) && o.error != ""
  {
    match reply
    case Ok(data) => SignedIn(data.user, data.token)
    case Err(_, message) => Failed(OrElse(message, LOGIN_FAILED))
  }

  /** The page's state. */
  class LoginView {
    var formData: LoginDraft
    var error: string

    constructor ()
      ensures formData == LoginDraft("", "") && error == ""
    {
      formData := LoginDraft("", "");
      error := "";
    }

    method HandleChange(input: LoginInput)
      modifies this`formData
      ensures formData == WithInput(old(formData), input)
    {
      formData := WithInput(formData, input);
    }

    /** `handleSubmit`: a form with an empty field is blocked by the browser
        and nothing happens. Otherwise the error is cleared, then either
        `onLogin` is called and the page moves to the dashboard, or the error
        is set. */
    method HandleSubmit(reply: Reply<LoginData>) returns (onLogin: Option<LoginData>, navigateTo: Option<string>)
      modifies this`error
      ensures !Submittable(formData) ==> onLogin == None && navigateTo == None && error == old(error)
      ensures Submittable(formData) && reply.Ok? ==>
        onLogin == Some(reply.value) && navigateTo == Some(AFTER_LOGIN) && error == ""
      ensures Submittable(formData) && reply.Err? ==>
        onLogin == None && navigateTo == None && error == SubmitOutcome(reply).error
    {
      if !Submittable(formData) {
        onLogin := None;
        navigateTo := None;
        return;
      }
      error := "";
      match SubmitOutcome(reply) {
        case SignedIn(u, t) =>
          onLogin := Some(LoginData(u, t));
          navigateTo := Some(AFTER_LOGIN);
        case Failed(e) =>
          onLogin := None;
          navigateTo := None;
          error := e;
      }
    }
  }
}
