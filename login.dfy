/**
 * The login page: a reducer over `{ email, password }`, the submit gate, the request
 * payload, the token write and the redirect after login, and the redirect of a user
 * who already holds a token.
 */
module Login {
  import opened Wrappers
  import opened Effects
  import opened FormAction
  import opened JsString
  import opened SessionStore
  import ProtectedRoute

  datatype Form = Form(email: string, password: string)

  const Initial := Form("", "")

  /** The reducer: "change" sets the named field, "reset" restores the empty form, anything else keeps the state. */
  function Reduce(state: Form, action: Action): (r: Form)
    ensures action.Reset? ==> r == Initial
    ensures action.Other? ==> r == state
    ensures action.Change? ==> r.email == (if action.name == "email" then action.value else state.email)
    ensures action.Change? ==> r.password == (if action.name == "password" then action.value else state.password)
  {
    match action
    case Change(name, value) =>
      if name == "email" then state.(email := value)
      else if name == "password" then state.(password := value)
      else state
    case Reset => Initial
    case Other(_) => state
  }

  /**
   * The button is enabled when the trimmed email is non-empty and the password has at
   * least six UTF-16 code units: six characters always suffice, fewer than three never do.
   */
  predicate CanSubmit(form: Form)
    ensures CanSubmit(form) <==> !AllWhitespace(form.email) && Utf16Length(form.password) >= 6
    ensures |form.password| >= 6 ==> (CanSubmit(form) <==> !AllWhitespace(form.email))
    ensures |form.password| < 3 ==> !CanSubmit(form)
  {
    TrimSpec(form.email);
    Trim(form.email) != "" && Utf16Length(form.password) >= 6
  }

  /** The empty form cannot be submitted. */
  lemma InitialCannotSubmit()
    ensures !CanSubmit(Initial)
  {
  }

  /** The body of `POST /login`. */
  datatype Payload = Payload(email: string, password: string)

  /** The email is sent trimmed, the password exactly as typed. */
  function PayloadOf(form: Form): (p: Payload)
    ensures p.email == Trim(form.email) && Trim(p.email) == p.email
    ensures p.password == form.password
    ensures CanSubmit(form) ==> p.email != "" && Utf16Length(p.password) >= 6
  {
    TrimIdempotent(form.email);
    Payload(Trim(form.email), form.password)
  }

  /**
   * The `token` of a login answer as JSON gives it: missing, `null`, a string, or any
   * other value, carried as its string form (`String(42)` is "42", `String([])` is "").
   */
  datatype TokenValue = Absent | Null | Text(s: string) | NonString(shown: string)

  /** The body of a successful login answer: `null`, or an object holding `token`. */
  datatype LoginData = NullBody | Body(token: TokenValue)

  /** The message of the `TypeError` that reading `token` of a `null` body raises. */
  const NullBodyMessage := "Cannot read properties of null (reading 'token')"

  /**
   * `localStorage.setItem("token", data.token)` stores the string form of its argument:
   * "undefined" for a missing token, "null" for `null`, the string itself, or the
   * string form of any other value.
   */
  function StoredToken(token: TokenValue): (s: string)
    ensures token.Absent? ==> s == "undefined"
    ensures token.Null? ==> s == "null"
    ensures token.Text? ==> s == token.s
    ensures token.NonString? ==> s == token.shown
    ensures s == "" <==> token == Text("") || token == NonString("")
  {
    match token
    case Absent => "undefined"
    case Null => "null"
    case Text(s) => s
    case NonString(shown) => shown
  }

  /** `location.state?.from?.pathname || "/dashboard"`. */
  function ReturnTarget(from: FromState): (to: string)
    ensures to != ""
    ensures from.From? && from.location.pathname != "" ==> to == from.location.pathname
    ensures !(from.From? && from.location.pathname != "") ==> to == "/dashboard"
  {
    if from.From? && from.location.pathname != "" then from.location.pathname else "/dashboard"
  }

  /** A user the guard sent here is, after logging in, sent back to the path they asked for. */
  lemma GuardRedirectReturnsHere(location: Location)
    requires location.pathname != ""
    ensures var d := ProtectedRoute.Decide(false, location);
            d.Redirect? && ReturnTarget(d.nav.from) == location.pathname
  {
  }

  /** The mount effect: a user who already holds a token is sent on to the dashboard. */
  function MountRedirect(items: map<string, string>): (nav: Option<Navigation>)
    ensures nav.Some? <==> HasToken(items)
    ensures nav.Some? ==> nav.value == Navigation("/dashboard", true, NoState)
  {
    if HasToken(items) then Some(Navigation("/dashboard", true, NoState)) else None
  }

  /** The alert shown when the login request fails. */
  function FailureAlert(e: ApiError): string {
    "❌ 登入失敗：" + Reason(e)
  }

  class LoginPage {
    var form: Form

    constructor ()
      ensures form == Initial
    {
      form := Initial;
    }

    method Dispatch(action: Action)
      modifies this
      ensures form == Reduce(old(form), action)
    {
      form := Reduce(form, action);
    }

    /**
     * `handleSubmit`: nothing happens unless the form can be submitted; otherwise the
     * payload is posted and, on success, the token is stored before navigating back to
     * the remembered page (or the dashboard); on failure, and on a `null` body whose
     * `token` cannot be read, an alert is shown and neither the store nor the location
     * changes.
     */
    method Submit(store: Storage, from: FromState, response: Outcome<LoginData>)
      returns (sent: Option<Payload>, nav: Option<Navigation>, alert: Option<string>)
      modifies store
      ensures !CanSubmit(form) ==> sent == None && nav == None && alert == None && store.items == old(store.items)
      ensures CanSubmit(form) ==> sent == Some(PayloadOf(form))
      ensures CanSubmit(form) && response.Ok? && response.data.Body? ==>
                && store.items == old(store.items)[TokenKey := StoredToken(response.data.token)]
                && nav == Some(Navigation(ReturnTarget(from), true, NoState))
                && alert == None
      ensures CanSubmit(form) && response.Ok? && response.data.NullBody? ==>
                && store.items == old(store.items)
                && nav == None
                && alert == Some(FailureAlert(ApiError("", NullBodyMessage)))
      ensures CanSubmit(form) && response.Failed? ==>
                && store.items == old(store.items)
                && nav == None
                && alert == Some(FailureAlert(response.error))
    {
      sent, nav, alert := None, None, None;
      if !CanSubmit(form) {
        return;
      }
      sent := Some(PayloadOf(form));
      match response
      case Ok(NullBody) =>
        // `data.token` throws a `TypeError`, which has no `response`.
        alert := Some(FailureAlert(ApiError("", NullBodyMessage)));
      case Ok(Body(token)) =>
        store.SetItem(TokenKey, StoredToken(token));
        nav := Some(Navigation(ReturnTarget(from), true, NoState));
      case Failed(e) =>
        alert := Some(FailureAlert(e));
    }
  }

  /**
   * After a successful login the guard lets the user through unless the token's string
   * form is empty: a missing token ("undefined"), a `null` one ("null") and a number all
   * pass.
   */
  lemma LoginSatisfiesGuard(items: map<string, string>, token: TokenValue)
    ensures HasToken(items[TokenKey := StoredToken(token)]) <==> token != Text("") && token != NonString("")
    ensures token.Absent? || token.Null? ==> HasToken(items[TokenKey := StoredToken(token)])
  {
  }
}
