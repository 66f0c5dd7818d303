/** The view state of the landing page and the transitions its event handlers
    make, as functions on state records. These are the specification of the
    imperative component in LandingApp; the lemmas state what the handlers
    promise. */
module Landing {
  import opened Validation

  datatype Form = Form(name: string, email: string)

  const EmptyForm := Form("", "")

  datatype ToastKind = Success | Error

  datatype Toast = Toast(visible: bool, message: string, kind: ToastKind)

  /** The four pieces of component state, plus the hide callbacks that `showToast`
      has scheduled and that have not yet run, oldest first. Each callback
      remembers the toast kind it was scheduled with; all share one delay, so they
      run in the order they were scheduled. */
  datatype View = View(showModal: bool, form: Form, toast: Toast, loading: bool, timers: seq<ToastKind>)

  const Initial := View(false, EmptyForm, Toast(false, "", Success), false, [])

  const NetworkError := "Network error. Please try again."
  const GenericError := "An error occurred."
  const Joined := "You're on the waitlist! \U{1F389}"
  const AlreadyJoined := "You're already on the waitlist! \U{1F389}"
  const InvalidData := "The given data was invalid."
  const EmailTaken := "The email has already been taken."

  /** What `res.json()` gives for a response whose status is not ok. */
  datatype ErrorBody =
    | Unparsable                                                  // res.json() rejects
    | NullBody                                                    // the body is JSON null
    | Fields(message: Option<string>, emailErrors: Option<seq<string>>)  // err.message, err.errors.email

  datatype Option<T> = None | Some(value: T)

  /** How the request ends, as far as the handler can observe it. */
  datatype Outcome = TransportFailure | NotOk(body: ErrorBody) | Ok

  // ---------------------------------------------------------------- small events

  function ToggleModal(v: View): View {
    v.(showModal := !v.showModal)
  }

  /** `showToast`: show the toast and schedule its hide callback. */
  function ShowToast(v: View, message: string, kind: ToastKind): View {
    v.(toast := Toast(true, message, kind), timers := v.timers + [kind])
  }

  /** The oldest scheduled hide callback runs: it hides the toast, clears the
      message and puts back the kind it was scheduled with. */
  function HideToast(v: View): View
    requires v.timers != []
  {
    v.(toast := Toast(false, "", v.timers[0]), timers := v.timers[1..])
  }

  function ChangeName(v: View, value: string): View {
    v.(form := v.form.(name := value))
  }

  function ChangeEmail(v: View, value: string): View {
    v.(form := v.form.(email := value))
  }

  // ---------------------------------------------------------------- submission

  /** The submit handler up to the request: validate, and on success mark the
      request as in flight. The second component is the body sent, if any. */
  function Submit(v: View): (View, Option<Form>) {
    match Validate(v.form.name, v.form.email)
    case Rejected(message) => (ShowToast(v, message, Error), None)
    case Accepted => (v.(loading := true), Some(v.form))
  }

  /** The duplicate-email test of the non-ok branch. */
  predicate IsDuplicate(message: Option<string>, emailErrors: Option<seq<string>>) {
    message == Some(InvalidData) && emailErrors.Some? && EmailTaken in emailErrors.value
  }

  /** `err.message || "An error occurred."`: an absent or empty message is falsy. */
  function MessageOr(message: Option<string>): (m: string)
    ensures m != ""
    ensures message.Some? && message.value != "" ==> m == message.value
    ensures message.None? || message.value == "" ==> m == GenericError
  {
    if message.Some? && message.value != "" then message.value else GenericError
  }

  /** The toast a response produces, and whether the modal closes and the form clears. */
  datatype Reaction = Reaction(message: string, kind: ToastKind, closes: bool)

  function React(o: Outcome): (r: Reaction)
    ensures r.message != ""
    ensures r.closes <==> r.kind == Success
    ensures r.kind == Success <==> o.Ok? || (o.NotOk? && o.body.Fields? && IsDuplicate(o.body.message, o.body.emailErrors))
  {
    match o
    case TransportFailure => Reaction(NetworkError, Error, false)
    case NotOk(Unparsable) => Reaction(NetworkError, Error, false)
    case NotOk(NullBody) => Reaction(NetworkError, Error, false)
    case NotOk(Fields(message, emailErrors)) =>
      if IsDuplicate(message, emailErrors) then Reaction(AlreadyJoined, Success, true)
      else Reaction(MessageOr(message), Error, false)
    case Ok => Reaction(Joined, Success, true)
  }

  /** The submit handler from the response on: the toast, the modal and the form
      as the outcome decides, and `loading` cleared on every path. */
  function Respond(v: View, o: Outcome): View {
    var r := React(o);
    var w := ShowToast(v, r.message, r.kind);
    (if r.closes then w.(showModal := false, form := EmptyForm) else w).(loading := false)
  }

  // ---------------------------------------------------------------- properties

  /** An empty field is reported before the email is looked at; no request is
      made, and only the toast changes. */
  lemma MissingFieldsRejected(v: View)
    requires v.form.name == "" || v.form.email == ""
    ensures Submit(v).1 == None
    ensures Submit(v).0.toast == Toast(true, MissingFields, Error)
    ensures Submit(v).0 == v.(toast := Submit(v).0.toast, timers := v.timers + [Error])
  {
  }

  /** Filled-in fields with an email outside the pattern's language are reported
      as invalid; no request is made, and only the toast changes. */
  lemma MalformedEmailRejected(v: View)
    requires v.form.name != "" && v.form.email != "" && !MatchesPattern(v.form.email)
    ensures Submit(v).1 == None
    ensures Submit(v).0.toast == Toast(true, InvalidEmail, Error)
    ensures Submit(v).0 == v.(toast := Submit(v).0.toast, timers := v.timers + [Error])
  {
  }

  /** A request is made exactly when both fields are filled in and the email is in
      the pattern's language; it carries the form, and only `loading` changes. */
  lemma RequestIffValid(v: View)
    ensures Submit(v).1.Some? <==> v.form.name != "" && v.form.email != "" && MatchesPattern(v.form.email)
    ensures Submit(v).1.Some? ==> Submit(v).1.value == v.form && Submit(v).0 == v.(loading := true)
  {
  }

  /** Every outcome of the request ends with `loading` false and a visible toast
      with a non-empty message; a success toast comes with the modal closed and
      the form cleared, an error toast leaves both as they were. */
  lemma RespondSettles(v: View, o: Outcome)
    ensures var w := Respond(v, o);
      !w.loading && w.toast.visible && w.toast.message != "" && w.timers == v.timers + [w.toast.kind] &&
      (w.toast.kind == Success ==> !w.showModal && w.form == EmptyForm) &&
      (w.toast.kind == Error ==> w.showModal == v.showModal && w.form == v.form)
  {
  }

  lemma OkJoins(v: View)
    ensures Respond(v, Ok).toast == Toast(true, Joined, Success)
    ensures !Respond(v, Ok).showModal && Respond(v, Ok).form == EmptyForm
  {
  }

  /** Both conditions are needed for the duplicate branch: the exact message, and
      the exact string among the email errors. */
  lemma DuplicateJoins(v: View, message: Option<string>, emailErrors: Option<seq<string>>)
    requires message == Some(InvalidData) && emailErrors.Some? && EmailTaken in emailErrors.value
    ensures var w := Respond(v, NotOk(Fields(message, emailErrors)));
      w.toast == Toast(true, AlreadyJoined, Success) && !w.showModal && w.form == EmptyForm
  {
  }

  /** Any other rejection shows the server's message, or the generic one when it
      is absent or empty, and leaves the modal and the form alone. */
  lemma OtherRejection(v: View, message: Option<string>, emailErrors: Option<seq<string>>)
    requires !IsDuplicate(message, emailErrors)
    ensures var w := Respond(v, NotOk(Fields(message, emailErrors)));
      w.toast.kind == Error && w.showModal == v.showModal && w.form == v.form &&
      w.toast.message == (if message.Some? && message.value != "" then message.value else GenericError)
  {
  }

  /** A rejected fetch, a body that does not parse and a null body (reading
      `message` of it throws) all land in the catch. */
  lemma FailureReportsNetworkError(v: View, o: Outcome)
    requires o.TransportFailure? || o == NotOk(Unparsable) || o == NotOk(NullBody)
    ensures var w := Respond(v, o);
      w.toast == Toast(true, NetworkError, Error) && w.showModal == v.showModal && w.form == v.form
  {
  }

  /** A toast whose hide callback is the only one scheduled is hidden by it, with
      its kind kept and its message cleared. */
  lemma HideAfterShow(v: View, message: string, kind: ToastKind)
    requires v.timers == []
    ensures HideToast(ShowToast(v, message, kind)) == v.(toast := Toast(false, "", kind))
  {
  }

  /** Two toasts in a row: the first one's callback hides the second toast while
      the second one's callback is still pending, and it restores the first kind. */
  lemma StaleTimerHidesNewerToast(v: View, m1: string, k1: ToastKind, m2: string, k2: ToastKind)
    requires v.timers == []
    ensures var w := ShowToast(ShowToast(v, m1, k1), m2, k2);
      w.toast == Toast(true, m2, k2) && HideToast(w).toast == Toast(false, "", k1) && HideToast(w).timers == [k2]
  {
  }

  /** Keystrokes in one field leave the other alone, so the order of edits to
      different fields does not matter. */
  lemma EditsCommute(v: View, name: string, email: string)
    ensures ChangeName(v, name).form == Form(name, v.form.email)
    ensures ChangeEmail(v, email).form == Form(v.form.name, email)
    ensures ChangeEmail(ChangeName(v, name), email) == ChangeName(ChangeEmail(v, email), name)
  {
  }

  lemma ToggleTwice(v: View)
    ensures ToggleModal(v).showModal != v.showModal
    ensures ToggleModal(ToggleModal(v)) == v
  {
  }
}
