/** Runs of the page as sequences of user, network and timer events. The page
    offers each event only when its control is on screen: the name and email
    inputs and the submit button live inside the modal, the submit button is
    disabled while `loading`, a response only arrives for a request in flight,
    and a hide callback only fires when one is scheduled. */
module Session {
  import opened Validation
  import opened Landing

  datatype Event =
    | ToggleClicked
    | NameTyped(value: string)
    | EmailTyped(value: string)
    | SubmitPressed
    | ResponseArrived(outcome: Outcome)
    | TimerFired

  /** The view, and whether a request is awaiting its response. */
  datatype Config = Config(view: View, awaiting: bool)

  const Start := Config(Initial, false)

  predicate Enabled(c: Config, e: Event) {
    match e
    case ToggleClicked => true
    case NameTyped(_) => c.view.showModal
    case EmailTyped(_) => c.view.showModal
    case SubmitPressed => c.view.showModal && !c.view.loading
    case ResponseArrived(_) => c.awaiting
    case TimerFired => c.view.timers != []
  }

  function Step(c: Config, e: Event): Config
    requires Enabled(c, e)
  {
    match e
    case ToggleClicked => c.(view := ToggleModal(c.view))
    case NameTyped(value) => c.(view := ChangeName(c.view, value))
    case EmailTyped(value) => c.(view := ChangeEmail(c.view, value))
    case SubmitPressed =>
      var (w, request) := Submit(c.view);
      Config(w, request.Some?)
    case ResponseArrived(o) => Config(Respond(c.view, o), false)
    case TimerFired => c.(view := HideToast(c.view))
  }

  /** The configuration a run of events leads to, or None when some event in it
      is not on offer at its turn. */
  function Run(c: Config, es: seq<Event>): Option<Config>
    decreases |es|
  {
    if es == [] then Some(c)
    else if !Enabled(c, es[0]) then None
    else Run(Step(c, es[0]), es[1..])
  }

  /** What holds in every reachable configuration: `loading` is set exactly while
      a request is in flight; a visible toast has a hide callback pending, the
      newest one, scheduled with its own kind; a hidden toast has no message. */
  predicate Inv(c: Config) {
    var v := c.view;
    (v.loading <==> c.awaiting) &&
    (v.toast.visible ==> v.timers != [] && v.timers[|v.timers| - 1] == v.toast.kind) &&
    (!v.toast.visible ==> v.toast.message == "")
  }

  lemma StepPreservesInv(c: Config, e: Event)
    requires Inv(c) && Enabled(c, e)
    ensures Inv(Step(c, e))
  {
  }

  lemma {:induction false} RunPreservesInv(c: Config, es: seq<Event>)
    requires Inv(c)
    ensures Run(c, es).Some? ==> Inv(Run(c, es).value)
    decreases |es|
  {
    if es != [] && Enabled(c, es[0]) {
      StepPreservesInv(c, es[0]);
      RunPreservesInv(Step(c, es[0]), es[1..]);
    }
  }

  /** Every configuration reachable from the page's first render satisfies Inv. */
  lemma ReachableInv(es: seq<Event>)
    ensures Run(Start, es).Some? ==> Inv(Run(Start, es).value)
  {
    RunPreservesInv(Start, es);
  }

  /** Because the submit button is disabled while `loading`, a second request is
      never started while one is in flight. */
  lemma NoOverlappingRequests(es: seq<Event>)
    requires Run(Start, es).Some? && Run(Start, es).value.awaiting
    ensures !Enabled(Run(Start, es).value, SubmitPressed)
  {
    ReachableInv(es);
  }

  /** Once the response is in, `loading` is false, whatever the outcome. */
  lemma ResponseEndsLoading(es: seq<Event>, o: Outcome)
    requires Run(Start, es).Some? && Run(Start, es).value.awaiting
    ensures Run(Start, es + [ResponseArrived(o)]).Some?
    ensures !Run(Start, es + [ResponseArrived(o)]).value.view.loading
  {
    RunAppend(Start, es, ResponseArrived(o));
  }

  /** Running one more event after a run is one more step. */
  lemma {:induction false} RunAppend(c: Config, es: seq<Event>, e: Event)
    requires Run(c, es).Some? && Enabled(Run(c, es).value, e)
    ensures Run(c, es + [e]) == Some(Step(Run(c, es).value, e))
    decreases |es|
  {
    if es == [] {
      assert es + [e] == [e];
      assert [e][1..] == [];
    } else {
      assert (es + [e])[0] == es[0];
      assert (es + [e])[1..] == es[1..] + [e];
      RunAppend(Step(c, es[0]), es[1..], e);
    }
  }

  lemma RunCons(c: Config, e: Event, es: seq<Event>)
    requires Enabled(c, e)
    ensures Run(c, [e] + es) == Run(Step(c, e), es)
  {
    assert ([e] + es)[0] == e;
    assert ([e] + es)[1..] == es;
  }

  /** A filled-in name with a well-formed email passes both guards. */
  lemma SampleAccepted()
    ensures Validate("A", "x@y.com") == Accepted
  {
    assert "x@y.com" == "x" + "@" + "y.com";
    assert "y.com" == "y" + "." + "com";
    assert IsRun("x") && IsRun("y") && IsRun("com");
    assert MatchesDomain("y.com");
  }

  /** The first successful sign-up from a fresh page: open the modal, type a name
      and a valid email, submit, get an ok response. */
  lemma FirstSignUp()
    ensures var es := [ToggleClicked, NameTyped("A"), EmailTyped("x@y.com"), SubmitPressed, ResponseArrived(Ok)];
      Run(Start, es) == Some(Config(View(false, EmptyForm, Toast(true, Joined, Success), false, [Success]), false))
  {
    var email := "x@y.com";
    SampleAccepted();
    var c1 := Step(Start, ToggleClicked);
    var c2 := Step(c1, NameTyped("A"));
    var c3 := Step(c2, EmailTyped(email));
    assert c3.view.form == Form("A", email);
    var c4 := Step(c3, SubmitPressed);
    assert c4.awaiting;
    var c5 := Step(c4, ResponseArrived(Ok));
    assert c5 == Config(View(false, EmptyForm, Toast(true, Joined, Success), false, [Success]), false);
    var es := [ToggleClicked, NameTyped("A"), EmailTyped(email), SubmitPressed, ResponseArrived(Ok)];
    assert es == [ToggleClicked] + ([NameTyped("A")] + ([EmailTyped(email)] + ([SubmitPressed] + ([ResponseArrived(Ok)] + []))));
    RunCons(c4, ResponseArrived(Ok), []);
    RunCons(c3, SubmitPressed, [ResponseArrived(Ok)] + []);
    RunCons(c2, EmailTyped(email), [SubmitPressed] + ([ResponseArrived(Ok)] + []));
    RunCons(c1, NameTyped("A"), [EmailTyped(email)] + ([SubmitPressed] + ([ResponseArrived(Ok)] + [])));
    RunCons(Start, ToggleClicked, [NameTyped("A")] + ([EmailTyped(email)] + ([SubmitPressed] + ([ResponseArrived(Ok)] + []))));
  }
}
