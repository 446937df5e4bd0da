/**
 * The task-creation page: a reducer over `{ title, description, status }`, the submit
 * gate, the title error flag, and the submit that posts the trimmed payload and
 * resets the form only after the server accepted it.
 */
module TaskCreate {
  import opened Wrappers
  import opened Effects
  import opened FormAction
  import opened JsString

  datatype Form = Form(title: string, description: string, status: string)

  /** `initialForm`. */
  const InitialForm := Form("", "", "todo")

  /** `formReducer`: "change" sets the named field, "reset" returns `initialForm`, anything else keeps the state. */
  function Reduce(state: Form, action: Action): (r: Form)
    ensures action.Reset? ==> r == InitialForm
    ensures action.Other? ==> r == state
    ensures action.Change? ==> r.title == (if action.name == "title" then action.value else state.title)
    ensures action.Change? ==> r.description == (if action.name == "description" then action.value else state.description)
    ensures action.Change? ==> r.status == (if action.name == "status" then action.value else state.status)
  {
    match action
    case Change(name, value) =>
      if name == "title" then state.(title := value)
      else if name == "description" then state.(description := value)
      else if name == "status" then state.(status := value)
      else state
    case Reset => InitialForm
    case Other(_) => state
  }

  /** Two changes of the same field: the later value wins. */
  lemma ChangeSameFieldLastWins(state: Form, name: string, v1: string, v2: string)
    ensures Reduce(Reduce(state, Change(name, v1)), Change(name, v2)) == Reduce(state, Change(name, v2))
  {
  }

  /** Changes of two different fields commute. */
  lemma ChangesCommute(state: Form, n1: string, v1: string, n2: string, v2: string)
    requires n1 != n2
    ensures Reduce(Reduce(state, Change(n1, v1)), Change(n2, v2))
         == Reduce(Reduce(state, Change(n2, v2)), Change(n1, v1))
  {
  }

  /** The button is enabled when the title holds more than white space and no submission is in flight. */
  predicate CanSubmit(form: Form, isSubmitting: bool)
    ensures CanSubmit(form, isSubmitting) <==> !AllWhitespace(form.title) && !isSubmitting
  {
    TrimSpec(form.title);
    Trim(form.title) != "" && !isSubmitting
  }

  /** The initial form cannot be submitted. */
  lemma InitialCannotSubmit(isSubmitting: bool)
    ensures !CanSubmit(InitialForm, isSubmitting)
  {
  }

  /**
   * The title field shows "標題不可為空" once a submit was attempted while the title
   * holds only white space; the error never shows beside an enabled button.
   */
  predicate TitleError(form: Form, attempted: bool)
    ensures TitleError(form, attempted) <==> attempted && AllWhitespace(form.title)
    ensures TitleError(form, attempted) ==> !CanSubmit(form, false)
  {
    TrimSpec(form.title);
    attempted && Trim(form.title) == ""
  }

  /** The body of `POST /tasks`. */
  datatype Payload = Payload(title: string, description: string, status: string)

  /** Title and description are sent trimmed, the status as selected. */
  function PayloadOf(form: Form): (p: Payload)
    ensures p.title == Trim(form.title) && Trim(p.title) == p.title
    ensures p.description == Trim(form.description) && Trim(p.description) == p.description
    ensures p.status == form.status
  {
    TrimIdempotent(form.title);
    TrimIdempotent(form.description);
    Payload(Trim(form.title), Trim(form.description), form.status)
  }

  const SuccessToast := Toast("✅ 任務已新增！", Success)

  /** The toast shown when the POST fails. */
  function FailureToast(e: ApiError): Toast {
    Toast("❌ 新增失敗：" + Reason(e), Error)
  }

  class TaskCreatePage {
    var form: Form
    var isSubmitting: bool
    var attempted: bool

    constructor ()
      ensures form == InitialForm && !isSubmitting && !attempted
    {
      form, isSubmitting, attempted := InitialForm, false, false;
    }

    method Dispatch(action: Action)
      modifies this
      ensures form == Reduce(old(form), action)
      ensures isSubmitting == old(isSubmitting) && attempted == old(attempted)
    {
      form := Reduce(form, action);
    }

    /**
     * `handleSubmit`: marks the attempt; with a blank title it stops before any request.
     * Otherwise it posts the trimmed payload; on success the form goes back to
     * `initialForm` and the attempt flag is cleared, on failure the form is kept and an
     * error toast is shown; either way no submission is in flight afterwards.
     */
    method Submit(response: Outcome<()>) returns (sent: Option<Payload>, toast: Option<Toast>)
      modifies this
      ensures attempted || sent.Some?
      ensures Trim(old(form.title)) == "" ==>
                && sent == None && toast == None && attempted
                && form == old(form) && isSubmitting == old(isSubmitting)
      ensures Trim(old(form.title)) != "" ==> sent == Some(PayloadOf(old(form))) && !isSubmitting
      ensures Trim(old(form.title)) != "" && response.Ok? ==>
                form == InitialForm && !attempted && toast == Some(SuccessToast)
      ensures Trim(old(form.title)) != "" && response.Failed? ==>
                form == old(form) && attempted && toast == Some(FailureToast(response.error))
    {
      attempted := true;
      sent, toast := None, None;
      if Trim(form.title) == "" {
        return;
      }
      isSubmitting := true;
      sent := Some(PayloadOf(form));
      match response {
        case Ok(_) =>
          form := Reduce(form, Reset);
          attempted := false;
          toast := Some(SuccessToast);
        case Failed(e) =>
          toast := Some(FailureToast(e));
      }
      isSubmitting := false;
    }
  }

  /** After a successful submit the form is empty again and cannot be submitted until a title is typed. */
  lemma ResetFormCannotSubmit()
    ensures !CanSubmit(InitialForm, false) && !TitleError(InitialForm, false)
  {
  }
}
