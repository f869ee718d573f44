/**
 * The sign-in form: a login/sign-up tab, three text inputs, an error line and a loading
 * flag held while the authentication call is in flight. The authentication calls
 * themselves belong to the session context and are parameters here.
 */
module AuthFormComponent {
  import opened Common

  /** The call the submit handler makes. */
  datatype AuthCall =
    | Login(username: string, password: string)
    | Signup(email: string, username: string, password: string)

  /** How the call ended: success, or a rejection with the server's optional `detail`. */
  datatype AuthOutcome = Authenticated | Rejected(detail: Option<string>)

  /** The message shown when a rejection carries no usable detail. */
  const FallbackMessage: string := "Authentication failed"

  /** Tab 0 logs in; any other tab signs up. */
  function Dispatch(tab: int, email: string, username: string, password: string): (call: AuthCall)
    ensures call.Login? <==> tab == 0
    ensures call.username == username && call.password == password
    ensures call.Signup? ==> call.email == email
  {
    if tab == 0 then Login(username, password) else Signup(email, username, password)
  }

  /**
   * The error line after a rejection: the server's detail when there is a non-empty one,
   * otherwise the fallback. It is never empty, so a rejection is always visible.
   */
  function RejectionMessage(detail: Option<string>): (msg: string)
    ensures msg != ""
    ensures detail.Some? && detail.value != "" ==> msg == detail.value
    ensures detail.None? || detail.value == "" ==> msg == FallbackMessage
  {
    OrElse(detail, FallbackMessage)
  }

  /** The form component's state. */
  class AuthForm {
    var tab: int
    var email: string
    var username: string
    var password: string
    var error: string
    var loading: bool

    constructor ()
      ensures tab == 0 && email == "" && username == "" && password == ""
      ensures error == "" && !loading
    {
      tab, email, username, password, error, loading := 0, "", "", "", "", false;
    }

    /** The email input is shown only on the sign-up tab, and then a submit signs up with it. */
    function EmailFieldShown(): (shown: bool)
      reads this
      ensures shown <==> tab == 1
      ensures shown ==> Dispatch(tab, email, username, password) == Signup(email, username, password)
    {
      tab == 1
    }

    /** The submit button is disabled exactly while the authentication call is in flight. */
    function SubmitDisabled(): (disabled: bool)
      reads this
      ensures disabled <==> loading
    {
      loading
    }

    /** The tab change handler: only the tab changes. */
    method ChangeTab(v: int)
      modifies this
      ensures tab == v
      ensures email == old(email) && username == old(username) && password == old(password)
      ensures error == old(error) && loading == old(loading)
    {
      tab := v;
    }

    /** The email input's change handler. */
    method SetEmail(v: string)
      modifies this
      ensures email == v
      ensures tab == old(tab) && username == old(username) && password == old(password)
      ensures error == old(error) && loading == old(loading)
    {
      email := v;
    }

    /** The username input's change handler. */
    method SetUsername(v: string)
      modifies this
      ensures username == v
      ensures tab == old(tab) && email == old(email) && password == old(password)
      ensures error == old(error) && loading == old(loading)
    {
      username := v;
    }

    /** The password input's change handler. */
    method SetPassword(v: string)
      modifies this
      ensures password == v
      ensures tab == old(tab) && email == old(email) && username == old(username)
      ensures error == old(error) && loading == old(loading)
    {
      password := v;
    }

    /** The submit handler up to the call: the error is cleared, loading is set, and the call is chosen by the tab. */
    method StartSubmit() returns (call: AuthCall)
      modifies this
      ensures error == "" && loading && SubmitDisabled()
      ensures tab == old(tab) && email == old(email) && username == old(username) && password == old(password)
      ensures call == Dispatch(tab, email, username, password)
      ensures EmailFieldShown() ==> call.Signup?
    {
      error := "";
      loading := true;
      if tab == 0 {
        call := Login(username, password);
      } else {
        call := Signup(email, username, password);
      }
    }

    /** The submit handler after the call: a rejection sets the error line; loading ends either way. */
    method CompleteSubmit(outcome: AuthOutcome)
      modifies this
      ensures !loading && !SubmitDisabled()
      ensures error == (if outcome.Rejected? then RejectionMessage(outcome.detail) else old(error))
      ensures tab == old(tab) && email == old(email) && username == old(username) && password == old(password)
    {
      if outcome.Rejected? {
        error := RejectionMessage(outcome.detail);
      }
      loading := false;
    }

    /** The whole submit handler, with the session context's login and signup as one parameter. */
    method HandleSubmit(authenticate: AuthCall -> AuthOutcome) returns (call: AuthCall)
      modifies this
      ensures call == Dispatch(old(tab), old(email), old(username), old(password))
      ensures !loading
      ensures authenticate(call).Authenticated? ==> error == ""
      ensures authenticate(call).Rejected? ==> error == RejectionMessage(authenticate(call).detail) && error != ""
      ensures tab == old(tab) && email == old(email) && username == old(username) && password == old(password)
    {
      call := StartSubmit();
      CompleteSubmit(authenticate(call));
    }
  }

  /** On the login tab the email field is hidden and the email is not sent. */
  lemma LoginTabSendsNoEmail(email1: string, email2: string, username: string, password: string)
    ensures Dispatch(0, email1, username, password) == Dispatch(0, email2, username, password)
  {
  }
}
