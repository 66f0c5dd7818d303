/** The landing-page component as an object: its four state variables are fields,
    and each handler updates them one assignment at a time, as the component's
    setters do. Every handler is proved to make the transition Landing specifies. */
module LandingApp {
  import opened Validation
  import opened Landing

  class App {
    var showModal: bool
    var form: Form
    var toast: Toast
    var loading: bool
    /** Hide callbacks scheduled and not yet run, oldest first. */
    var timers: seq<ToastKind>

    function State(): View
      reads this
    {
      View(showModal, form, toast, loading, timers)
    }

    /** The initial values of the four `useState` calls. */
    constructor ()
      ensures State() == Initial
    {
      showModal := false;
      form := Form("", "");
      toast := Toast(false, "", Success);
      loading := false;
      timers := [];
    }

    method ToggleModal()
      modifies this
      ensures State() == Landing.ToggleModal(old(State()))
    {
      showModal := !showModal;
    }

    method ShowToast(message: string, kind: ToastKind)
      modifies this
      ensures State() == Landing.ShowToast(old(State()), message, kind)
    {
      toast := Toast(true, message, kind);
      timers := timers + [kind];
    }

    /** The oldest pending hide callback fires. */
    method HideTimerFires()
      requires timers != []
      modifies this
      ensures State() == Landing.HideToast(old(State()))
    {
      var kind := timers[0];
      timers := timers[1..];
      toast := Toast(false, "", kind);
    }

    method ChangeName(value: string)
      modifies this
      ensures State() == Landing.ChangeName(old(State()), value)
    {
      form := form.(name := value);
    }

    method ChangeEmail(value: string)
      modifies this
      ensures State() == Landing.ChangeEmail(old(State()), value)
    {
      form := form.(email := value);
    }

    /** The submit handler up to the await: the two guards with their early
        returns, then `loading` set and the request body handed out. */
    method HandleSubmit() returns (request: Option<Form>)
      modifies this
      ensures (State(), request) == Landing.Submit(old(State()))
    {
      var name, email := form.name, form.email;
      if name == "" || email == "" {
        ShowToast(MissingFields, Error);
        return None;
      }
      if !PatternTest(email) {
        ShowToast(InvalidEmail, Error);
        return None;
      }
      loading := true;
      request := Some(form);
    }

    /** The submit handler from the await on: the try block, its catch and its
        finally, with `thrown` marking the paths that reach the catch. */
    method HandleResponse(outcome: Outcome)
      modifies this
      ensures State() == Landing.Respond(old(State()), outcome)
    {
      var thrown := false;
      match outcome {
        case TransportFailure =>
          thrown := true;
        case NotOk(body) =>
          match body {
            case Unparsable =>
              thrown := true;
            case NullBody =>
              thrown := true;
            case Fields(message, emailErrors) =>
              if message == Some(InvalidData) && emailErrors.Some? && EmailTaken in emailErrors.value {
                ShowToast(AlreadyJoined, Success);
                showModal := false;
                form := Form("", "");
              } else {
                ShowToast(if message.Some? && message.value != "" then message.value else GenericError, Error);
              }
              loading := false;
          }
        case Ok =>
          ShowToast(Joined, Success);
          form := Form("", "");
          showModal := false;
      }
      if thrown {
        ShowToast(NetworkError, Error);
      }
      loading := false;
    }
  }
}
