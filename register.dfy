/**
 * The registration page: a reducer over `{ username, email, password }`, the submit
 * gate, the per-field error flags, and the POST-then-navigate submit.
 */
module Register {
  import opened Wrappers
  import opened Effects
  import opened FormAction
  import opened JsString

  datatype Form = Form(username: string, email: string, password: string)

  const Initial := Form("", "", "")

  /** The reducer: "change" sets the named field, "reset" restores the empty form, anything else keeps the state. */
  function Reduce(state: Form, action: Action): (r: Form)
    ensures action.Reset? ==> r == Initial
    ensures action.Other? ==> r == state
    ensures action.Change? ==> r.username == (if action.name == "username" then action.value else state.username)
    ensures action.Change? ==> r.email == (if action.name == "email" then action.value else state.email)
    ensures action.Change? ==> r.password == (if action.name == "password" then action.value else state.password)
  {
    match action
    case Change(name, value) =>
      if name == "username" then state.(username := value)
      else if name == "email" then state.(email := value)
      else if name == "password" then state.(password := value)
      else state
    case Reset => Initial
    case Other(_) => state
  }

  /**
   * The button is enabled when the trimmed username and email are non-empty and the
   * password has at least six UTF-16 code units: six characters always suffice, fewer
   * than three never do.
   */
  predicate CanSubmit(form: Form)
    ensures CanSubmit(form) <==>
              !AllWhitespace(form.username) && !AllWhitespace(form.email) && Utf16Length(form.password) >= 6
    ensures |form.password| >= 6 ==> (CanSubmit(form) <==> !AllWhitespace(form.username) && !AllWhitespace(form.email))
    ensures |form.password| < 3 ==> !CanSubmit(form)
  {
    TrimSpec(form.username);
    TrimSpec(form.email);
    Trim(form.username) != "" && Trim(form.email) != "" && Utf16Length(form.password) >= 6
  }

  /** The username field is marked "必填" while its trimmed value is empty, that is while it holds only white space. */
  predicate UsernameError(form: Form)
    ensures UsernameError(form) <==> AllWhitespace(form.username)
  {
    TrimSpec(form.username);
    Trim(form.username) == ""
  }

  /** The email field is marked "必填" while it holds only white space. */
  predicate EmailError(form: Form)
    ensures EmailError(form) <==> AllWhitespace(form.email)
  {
    TrimSpec(form.email);
    Trim(form.email) == ""
  }

  /**
   * The password field is marked "至少 6 碼" once something is typed and while it is
   * shorter than six code units: never when empty or at six characters, always at one or two.
   */
  predicate PasswordError(form: Form)
    ensures form.password == "" ==> !PasswordError(form)
    ensures |form.password| >= 6 ==> !PasswordError(form)
    ensures 0 < |form.password| < 3 ==> PasswordError(form)
  {
    0 < Utf16Length(form.password) < 6
  }

  /**
   * The form can be submitted exactly when no field is flagged and a password was
   * typed: an empty password is not flagged, yet it still keeps the button disabled.
   */
  lemma CanSubmitIffNoErrors(form: Form)
    ensures CanSubmit(form) <==>
              !UsernameError(form) && !EmailError(form) && !PasswordError(form) && form.password != ""
  {
    if form.password != "" {
      assert Utf16Length(form.password) > 0;
    }
  }

  /** On the empty form username and email are flagged, the password is not, and submitting is disabled. */
  lemma InitialFlags()
    ensures UsernameError(Initial) && EmailError(Initial) && !PasswordError(Initial)
    ensures !CanSubmit(Initial)
  {
  }

  /** The body of `POST /register`. */
  datatype Payload = Payload(username: string, email: string, password: string)

  /** Username and email are sent trimmed, the password exactly as typed. */
  function PayloadOf(form: Form): (p: Payload)
    ensures p.username == Trim(form.username) && Trim(p.username) == p.username
    ensures p.email == Trim(form.email) && Trim(p.email) == p.email
    ensures p.password == form.password
  {
    TrimIdempotent(form.username);
    TrimIdempotent(form.email);
    Payload(Trim(form.username), Trim(form.email), form.password)
  }

  const SuccessAlert := "✅ 註冊成功，請用剛剛的 Email 登入"

  /** The alert shown when registration fails. */
  function FailureAlert(e: ApiError): string {
    "❌ 註冊失敗：" + Reason(e)
  }

  class RegisterPage {
    var form: Form

    constructor ()
      ensures form == Initial
    {
      form := Initial;
    }

    method Dispatch(action: Action)
      modifies this
      ensures form == Reduce(old(form), action)
    {
      form := Reduce(form, action);
    }

    /**
     * `onSubmit`: nothing happens unless the form can be submitted; otherwise the
     * payload is posted; success alerts and replaces the location with "/login",
     * failure alerts and stays.
     */
    method Submit(response: Outcome<()>) returns (sent: Option<Payload>, nav: Option<Navigation>, alert: Option<string>)
      ensures !CanSubmit(form) ==> sent == None && nav == None && alert == None
      ensures CanSubmit(form) ==> sent == Some(PayloadOf(form))
      ensures CanSubmit(form) && response.Ok? ==>
                nav == Some(Navigation("/login", true, NoState)) && alert == Some(SuccessAlert)
      ensures CanSubmit(form) && response.Failed? ==>
                nav == None && alert == Some(FailureAlert(response.error))
    {
      sent, nav, alert := None, None, None;
      if !CanSubmit(form) {
        return;
      }
      sent := Some(PayloadOf(form));
      match response
      case Ok(_) =>
        alert := Some(SuccessAlert);
        nav := Some(Navigation("/login", true, NoState));
      case Failed(e) =>
        alert := Some(FailureAlert(e));
    }
  }
}
