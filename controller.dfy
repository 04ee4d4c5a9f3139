/** The page that drives the questionnaire (src/pages/Index.tsx): which of
    the three screens is shown, the answers last submitted, and the four
    handlers the screens call. */
module Controller {
  import opened SymptomModel
  import opened SymptomInput

  datatype Screen = Landing | Symptoms | Results

  /** The handlers the screens can call. */
  datatype Action =
    | CheckRisk                        // "check my risk" on the landing screen
    | AssessRisk(submitted: SymptomData) // "assess" on the symptom form
    | Back                             // "back" on the symptom form
    | StartOver                        // "start over" on the result screen

  /** The page state: the screen shown and the stored answers. */
  datatype AppState = AppState(screen: Screen, data: SymptomData)

  /** The page opens on the landing screen with the default answers. */
  function Initial(): (st: AppState)
    ensures st.screen == Landing && InRange(st.data)
  {
    AppState(Landing, Default())
  }

  /** The state after one handler has run; the two updates inside a handler
      take effect together. */
  function Step(st: AppState, a: Action): AppState {
    match a
    case CheckRisk => st.(screen := Symptoms)
    case AssessRisk(d) => AppState(Results, d)
    case Back => st.(screen := Landing)
    case StartOver => Initial()
  }

  /** The handlers each screen offers: the landing screen "check my risk",
      the form "assess" and "back", the result screen "start over". */
  predicate Offers(s: Screen, a: Action) {
    match s
    case Landing => a == CheckRisk
    case Symptoms => a.AssessRisk? || a == Back
    case Results => a == StartOver
  }

  /** "Start over" restores the opening state from any state. */
  lemma StartOverResets(st: AppState)
    ensures Step(st, StartOver) == Initial()
    ensures Step(st, StartOver).data == SymptomData(3, 2, false, false, false, false)
  {
  }

  /** Opening the form and going back returns to the landing screen with the
      stored answers untouched. */
  lemma CheckRiskThenBack(st: AppState)
    requires st.screen == Landing
    ensures Step(st, CheckRisk).screen == Symptoms
    ensures Step(st, CheckRisk).data == st.data
    ensures Step(Step(st, CheckRisk), Back) == st
  {
  }

  /** Assessing stores the submitted answers verbatim, and the result screen
      then shows their level. */
  lemma AssessStores(st: AppState, d: SymptomData)
    ensures Step(st, AssessRisk(d)).screen == Results
    ensures Step(st, AssessRisk(d)).data == d
    ensures Classify(Step(st, AssessRisk(d)).data) == Classify(d)
  {
  }

  /** Every handler a screen offers leads to another screen. */
  lemma OfferedActionsMove(st: AppState, a: Action)
    requires Offers(st.screen, a)
    ensures Step(st, a).screen != st.screen
  {
  }

  /** Only "assess" leads to the result screen. */
  lemma ResultsOnlyByAssess(st: AppState, a: Action)
    ensures Step(st, a).screen == Results <==> a.AssessRisk?
  {
  }

  /** The state after a series of handler calls. */
  function Run(st: AppState, actions: seq<Action>): AppState
    decreases |actions|
  {
    if actions == [] then st else Run(Step(st, actions[0]), actions[1..])
  }

  /** The stored answers only ever come from the opening state or from a
      submission, so in-range submissions keep them in range. */
  lemma {:induction false} RunKeepsRange(st: AppState, actions: seq<Action>)
    requires InRange(st.data)
    requires forall i :: 0 <= i < |actions| && actions[i].AssessRisk? ==> InRange(actions[i].submitted)
    ensures InRange(Run(st, actions).data)
    decreases |actions|
  {
    if actions != [] {
      var next := Step(st, actions[0]);
      assert InRange(next.data);
      forall i | 0 <= i < |actions[1..]| && actions[1..][i].AssessRisk?
        ensures InRange(actions[1..][i].submitted)
      {
        assert actions[1..][i] == actions[i + 1];
      }
      RunKeepsRange(next, actions[1..]);
    }
  }

  /** Whatever the history, the page is on the result screen exactly when
      the last handler was "assess", and it then stores the answers that
      handler submitted. */
  lemma {:induction false} RunScreen(st: AppState, actions: seq<Action>)
    requires actions != []
    ensures Run(st, actions).screen == Results <==> actions[|actions| - 1].AssessRisk?
    ensures actions[|actions| - 1].AssessRisk? ==>
      Run(st, actions).data == actions[|actions| - 1].submitted
    decreases |actions|
  {
    if |actions| == 1 {
      assert Run(st, actions) == Step(st, actions[0]);
    } else {
      RunScreen(Step(st, actions[0]), actions[1..]);
      assert actions[1..][|actions[1..]| - 1] == actions[|actions| - 1];
    }
  }

  /** The page itself. */
  class App {
    var screen: Screen
    var data: SymptomData

    function State(): AppState
      reads this
    {
      AppState(screen, data)
    }

    /** The page opens on the landing screen with the default answers. */
    constructor()
      ensures State() == Initial()
      ensures screen == Landing && data == Default()
    {
      screen := Landing;
      data := SymptomData(3, 2, false, false, false, false);
    }

    /** "Check my risk": show the symptom form. */
    method HandleCheckRisk()
      modifies this
      ensures screen == Symptoms && data == old(data)
      ensures State() == Step(old(State()), CheckRisk)
    {
      screen := Symptoms;
    }

    /** "Assess": store the submitted answers and show the result. */
    method HandleAssessRisk(d: SymptomData)
      modifies this
      ensures screen == Results && data == d
      ensures State() == Step(old(State()), AssessRisk(d))
    {
      data := d;
      screen := Results;
    }

    /** "Back" on the form: show the landing screen again. */
    method HandleBack()
      modifies this
      ensures screen == Landing && data == old(data)
      ensures State() == Step(old(State()), Back)
    {
      screen := Landing;
    }

    /** "Start over": restore the default answers and the landing screen. */
    method HandleStartOver()
      modifies this
      ensures screen == Landing && data == Default()
      ensures State() == Step(old(State()), StartOver)
    {
      data := SymptomData(3, 2, false, false, false, false);
      screen := Landing;
    }

    /** The level the result screen is given, computed from the stored
        answers each time it is drawn. */
    method ShownLevel() returns (level: RiskLevel)
      requires screen == Results
      ensures level == High <==> Score(data) >= 15.0
      ensures level == Medium <==> 8.0 <= Score(data) < 15.0
      ensures level == Low <==> Score(data) < 8.0
    {
      level := CalculateRiskLevel(data);
    }
  }

  /** Makes one edit on the form through the widget callback it belongs to. */
  method Perform(form: SymptomForm, e: Edit)
    requires WidgetValue(e)
    modifies form
    ensures form.data == Apply(old(form.data), e)
  {
    match e
    case SetSeverity(n) => form.MoveSeveritySlider(n);
    case SetDuration(n) => form.MoveDurationSlider(n);
    case SetOutside(b) => form.ToggleOutsidePeriods(b);
    case SetGi(b) => form.ToggleGiSymptoms(b);
    case SetFatigue(b) => form.ToggleFatigue(b);
    case SetIrregular(b) => form.ToggleIrregularCycles(b);
  }

  /** One visit to the symptom form: it opens on the stored answers, the
      user makes a series of widget edits, then either submits or goes back.
      Submitting stores exactly the edited answers and shows the result;
      going back discards every edit. */
  method VisitForm(app: App, edits: seq<Edit>, submit: bool)
    requires app.screen == Symptoms
    requires forall i :: 0 <= i < |edits| ==> WidgetValue(edits[i])
    modifies app
    ensures submit ==> app.screen == Results && app.data == ApplyAll(old(app.data), edits)
    ensures !submit ==> app.screen == Landing && app.data == old(app.data)
    ensures old(InRange(app.data)) ==> InRange(app.data)
  {
    var form := new SymptomForm(app.data);
    var i := 0;
    while i < |edits|
      invariant 0 <= i <= |edits|
      invariant form.data == ApplyAll(app.data, edits[..i])
      invariant app.screen == Symptoms && app.data == old(app.data)
    {
      assert edits[..i + 1][..i] == edits[..i];
      Perform(form, edits[i]);
      i := i + 1;
    }
    assert edits[..i] == edits;
    if InRange(app.data) {
      ApplyAllKeepsRange(app.data, edits);
    }
    if submit {
      var submitted := form.HandleSubmit();
      GetDetermines(submitted, form.data);
      app.HandleAssessRisk(submitted);
    } else {
      app.HandleBack();
    }
  }
}
