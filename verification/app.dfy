/** The page controller (App.tsx): four pieces of state, the events that
    change them, and the views they select. The asynchronous analysis is
    split into its synchronous start (`Submit`) and its settlement
    (`Settle`), two discrete events. */
module App {
  import opened Wrappers
  import opened Types
  import AdForm
  import Dashboard

  /** The one message the banner ever shows; the underlying error is only
      logged. */
  const FailureMessage := "Analysis failed. Please try again later. Ensure the video isn't too large or corrupted."

  datatype AppState = AppState(
    loading: bool,
    error: Option<string>,
    analysis: Option<DiagnosticResult>,
    inputData: Option<AdInput>)

  const Initial := AppState(false, None, None, None)

  /** The start of `handleAnalyze`: loading on, error cleared, the submitted
      input kept; the previous analysis is not touched. */
  function Submit(s: AppState, input: AdInput): (r: AppState)
    ensures r.loading && r.error.None? && r.inputData == Some(input)
    ensures r.analysis == s.analysis
  {
    s.(loading := true, error := None, inputData := Some(input))
  }

  /** The end of `handleAnalyze`: on success the result is stored, on
      failure the fixed message is shown (never the cause); either way
      loading ends and the input is kept. */
  function Settle(s: AppState, outcome: Result<DiagnosticResult, string>): (r: AppState)
    ensures !r.loading && r.inputData == s.inputData
    ensures outcome.Success? ==> r.analysis == Some(outcome.value) && r.error == s.error
    ensures outcome.Failure? ==> r.error == Some(FailureMessage) && r.analysis == s.analysis
  {
    match outcome
    case Success(result) => s.(analysis := Some(result), loading := false)
    case Failure(_) => s.(error := Some(FailureMessage), loading := false)
  }

  /** `handleAnalyze` as a whole: the state while the call is pending and
      the state once it settled with `outcome`. */
  function HandleAnalyze(s: AppState, input: AdInput, outcome: Result<DiagnosticResult, string>): (r: (AppState, AppState))
    ensures r.0.loading && !r.1.loading
    ensures r.1.inputData == Some(input)
    ensures r.1.error.Some? <==> outcome.Failure?
    ensures r.1.error.Some? ==> r.1.error.value == FailureMessage
    ensures outcome.Success? ==> r.1.analysis == Some(outcome.value)
    ensures outcome.Failure? ==> r.1.analysis == s.analysis
    ensures s.analysis.None? ==> (r.1.analysis.Some? <==> outcome.Success?)
  {
    var pending := Submit(s, input);
    (pending, Settle(pending, outcome))
  }

  /** `handleReset` (the "Back to Input" button): result and input are
      discarded; loading and error are left as they are. */
  function HandleReset(s: AppState): (r: AppState)
    ensures r.analysis.None? && r.inputData.None?
    ensures r.loading == s.loading && r.error == s.error
  {
    s.(analysis := None, inputData := None)
  }

  /** Resetting twice is resetting once. */
  lemma ResetIdempotent(s: AppState)
    ensures HandleReset(HandleReset(s)) == HandleReset(s)
  {
  }

  /** The banner's close button: only the error is cleared. */
  function DismissError(s: AppState): (r: AppState)
    ensures r.error.None?
    ensures r.loading == s.loading && r.analysis == s.analysis && r.inputData == s.inputData
  {
    s.(error := None)
  }

  /** The four view conditions of the page. */
  predicate ShowsForm(s: AppState) { s.analysis.None? && !s.loading }
  predicate ShowsSpinner(s: AppState) { s.loading }
  predicate ShowsBanner(s: AppState) { s.error.Some? && s.error.value != "" }
  predicate ShowsDashboard(s: AppState) { s.analysis.Some? && !s.loading }

  /** Form, spinner and dashboard exclude one another and one of them is
      always shown. */
  lemma OneMainView(s: AppState)
    ensures ShowsForm(s) || ShowsSpinner(s) || ShowsDashboard(s)
    ensures !(ShowsForm(s) && ShowsSpinner(s)) && !(ShowsForm(s) && ShowsDashboard(s))
    ensures !(ShowsSpinner(s) && ShowsDashboard(s))
  {
  }

  /** What the dashboard receives. */
  datatype DashboardProps = DashboardProps(
    analysis: DiagnosticResult,
    originalCopy: string,
    platform: string,
    videoData: Option<string>)

  /** The dashboard's props: the analysis, the input's copy and platform
      (or "" without an input) and the input's video payload, if any. */
  function Props(s: AppState): (p: DashboardProps)
    requires ShowsDashboard(s)
    ensures p.analysis == s.analysis.value
    ensures s.inputData.Some? ==> p.originalCopy == s.inputData.value.adCopy && p.platform == s.inputData.value.platform
    ensures s.inputData.None? ==> p.originalCopy == "" && p.platform == ""
    ensures p.videoData.Some? <==> s.inputData.Some? && s.inputData.value.videoData.Some?
    ensures p.videoData.Some? ==> p.videoData.value == s.inputData.value.videoData.value.data
  {
    match s.inputData
    case None => DashboardProps(s.analysis.value, "", "", None)
    case Some(input) =>
      // The `|| ""` fallbacks only matter when there is no input.
      DashboardProps(s.analysis.value,
                     input.adCopy,
                     input.platform,
                     match input.videoData
                     case None => None
                     case Some(v) => Some(v.data))
  }

  /** On the dashboard, the original-source panel shows the submitted copy
      (or the stand-in for an empty one) and plays the submitted video
      exactly when its payload is non-empty. */
  lemma DashboardShowsSubmission(s: AppState, input: AdInput)
    requires ShowsDashboard(s) && s.inputData == Some(input)
    ensures Dashboard.OriginalCopyText(Props(s).originalCopy)
              == (if input.adCopy == "" then Dashboard.NoCopyText else input.adCopy)
    ensures Dashboard.ShowsVideo(Props(s).videoData) <==> input.videoData.Some? && input.videoData.value.data != ""
  {
  }

  /** The user and the pending call, as events on the page. */
  datatype Event =
    | SubmitEvent(form: AdInput)
    | Settled(outcome: Result<DiagnosticResult, string>)
    | BackEvent
    | DismissEvent

  /** An event can happen only through what is on screen: a submit needs the
      form shown and its guard passed, a settlement needs a pending call,
      "Back" needs the dashboard and dismissing needs the banner. */
  predicate Enabled(s: AppState, e: Event) {
    match e
    case SubmitEvent(form) => ShowsForm(s) && AdForm.SubmitForm(form, s.loading) == AdForm.Submitted(form)
    case Settled(_) => s.loading
    case BackEvent => ShowsDashboard(s)
    case DismissEvent => ShowsBanner(s)
  }

  function Step(s: AppState, e: Event): AppState {
    match e
    case SubmitEvent(form) => Submit(s, form)
    case Settled(outcome) => Settle(s, outcome)
    case BackEvent => HandleReset(s)
    case DismissEvent => DismissError(s)
  }

  /** Every event of `es` is enabled when it happens. */
  predicate ValidRun(s: AppState, es: seq<Event>)
    decreases |es|
  {
    |es| == 0 || (Enabled(s, es[0]) && ValidRun(Step(s, es[0]), es[1..]))
  }

  function Run(s: AppState, es: seq<Event>): AppState
    decreases |es|
  {
    if |es| == 0 then s else Run(Step(s, es[0]), es[1..])
  }

  /** The input passes the form's own submit guard. */
  predicate Submittable(input: AdInput) {
    |input.adCopy| >= AdForm.MinCopyLength || input.videoData.Some?
  }

  /** What holds in every state the page can reach: the only error text is
      the fixed message; while loading there is neither result nor error but
      there is an input; a result always comes with its input and without an
      error; and every kept input passed the submit guard. */
  predicate Inv(s: AppState) {
    && (s.error.Some? ==> s.error.value == FailureMessage)
    && (s.loading ==> s.analysis.None? && s.error.None? && s.inputData.Some?)
    && (s.analysis.Some? ==> s.inputData.Some? && s.error.None?)
    && (s.inputData.Some? ==> Submittable(s.inputData.value))
  }

  lemma StepPreservesInv(s: AppState, e: Event)
    requires Inv(s) && Enabled(s, e)
    ensures Inv(Step(s, e))
  {
  }

  lemma {:induction false} RunPreservesInv(s: AppState, es: seq<Event>)
    requires Inv(s) && ValidRun(s, es)
    ensures Inv(Run(s, es))
    decreases |es|
  {
    if |es| > 0 {
      StepPreservesInv(s, es[0]);
      RunPreservesInv(Step(s, es[0]), es[1..]);
    }
  }

  /** Calls started minus calls settled. */
  function Outstanding(es: seq<Event>): int
    decreases |es|
  {
    if |es| == 0 then 0
    else (match es[0] case SubmitEvent(_) => 1 case Settled(_) => -1 case _ => 0) + Outstanding(es[1..])
  }

  /** At most one analysis is ever in flight: along any run, the calls
      started and not yet settled number one while loading and none
      otherwise. */
  lemma {:induction false} AtMostOneInFlight(s: AppState, es: seq<Event>)
    requires ValidRun(s, es)
    ensures (if s.loading then 1 else 0) + Outstanding(es) == (if Run(s, es).loading then 1 else 0)
    decreases |es|
  {
    if |es| > 0 {
      AtMostOneInFlight(Step(s, es[0]), es[1..]);
    }
  }

  /** Everything reachable from the first render satisfies the invariant,
      and no call is outstanding unless the spinner is shown. */
  lemma Reachable(es: seq<Event>)
    requires ValidRun(Initial, es)
    ensures Inv(Run(Initial, es))
    ensures Outstanding(es) == (if ShowsSpinner(Run(Initial, es)) then 1 else 0)
  {
    RunPreservesInv(Initial, es);
    AtMostOneInFlight(Initial, es);
  }

  /** The page read as the single-flow machine Idle, Loading, Success and
      Error. */
  datatype Phase = Idle | Loading | Succeeded(result: DiagnosticResult, input: AdInput) | Failed(message: string)

  function PhaseOf(s: AppState): Phase
    requires Inv(s)
  {
    if s.loading then Loading
    else if s.analysis.Some? then Succeeded(s.analysis.value, s.inputData.value)
    else if s.error.Some? then Failed(s.error.value)
    else Idle
  }

  /** The enabled events move between phases exactly as the single-flow
      machine does: submit from Idle or Error to Loading; settle from Loading
      to Success (with the submitted input) or Error; Back from Success to
      Idle; dismiss from Error to Idle. */
  lemma PhaseTransitions(s: AppState, e: Event)
    requires Inv(s) && Enabled(s, e)
    ensures Inv(Step(s, e))
    ensures e.SubmitEvent? ==> (PhaseOf(s).Idle? || PhaseOf(s).Failed?) && PhaseOf(Step(s, e)) == Loading
    ensures e.Settled? && e.outcome.Success? ==>
              PhaseOf(s) == Loading && PhaseOf(Step(s, e)) == Succeeded(e.outcome.value, s.inputData.value)
    ensures e.Settled? && e.outcome.Failure? ==>
              PhaseOf(s) == Loading && PhaseOf(Step(s, e)) == Failed(FailureMessage)
    ensures e.BackEvent? ==> PhaseOf(s).Succeeded? && PhaseOf(Step(s, e)) == Idle
    ensures e.DismissEvent? ==> PhaseOf(s).Failed? && PhaseOf(Step(s, e)) == Idle
  {
    StepPreservesInv(s, e);
  }

  /** The banner only ever shows next to the form: never over the spinner
      or the dashboard. */
  lemma BannerOnlyWithForm(s: AppState)
    requires Inv(s)
    ensures ShowsBanner(s) ==> ShowsForm(s)
  {
  }
}
