/**
 * The application shell: five pieces of state, the `loadData` sequence that
 * fetches a snapshot and then asks for the analysis, and the choice of screen.
 *
 * The two awaited calls are inputs: `fetch` is the outcome of fetching the
 * snapshot, and `analyse` gives the outcome of the analysis for the snapshot
 * that was fetched. Each `loadData` run is taken to complete before the next
 * one starts.
 */
module App {
  import opened Outcomes
  import opened Types
  import opened AIAdvisor

  /** Set when fetching the snapshot fails. */
  const DataFailureMessage := "Não foi possível carregar os dados do painel. Verifique sua conexão e tente novamente."

  /** Set when the analysis fails after the snapshot arrived. */
  const AiFailureMessage := "Falha ao obter a análise da IA. Tente novamente mais tarde."

  /** The justification stored in place of a failed analysis. */
  const FallbackJustification := "Não foi possível carregar a análise da IA."

  /** The recommendation stored in place of a failed analysis. */
  const FallbackRecommendation := AIRecommendation("ERROR", FallbackJustification)

  /** The component's five pieces of state; `None` stands for `null`. */
  datatype AppState = AppState(
    data: Option<DashboardData>,
    aiRecommendation: Option<AIRecommendation>,
    isLoading: bool,
    isAiLoading: bool,
    error: Option<string>)

  /** The state before the first load: nothing fetched, both loading flags raised. */
  const InitialState := AppState(None, None, true, true, None)

  /** The first step of a load: both loading flags raised, the error and the recommendation cleared, the snapshot kept. */
  function Started(s: AppState): (t: AppState)
    ensures t.isLoading && t.isAiLoading && t.error.None? && t.aiRecommendation.None?
    ensures t.data == s.data
  {
    s.(isLoading := true, isAiLoading := true, error := None, aiRecommendation := None)
  }

  /** The state while the analysis is awaited: the new snapshot stored, both flags still raised. */
  function AwaitingAnalysis(s: AppState, d: DashboardData): AppState {
    Started(s).(data := Some(d))
  }

  /**
   * A whole `loadData` run from state `s`. A failed fetch keeps the previous
   * snapshot and leaves the analysis flagged as loading; a fetched snapshot is
   * stored and followed by either the analysis or the fallback recommendation
   * with its error. The page-level loading flag always ends lowered.
   */
  function LoadTransition(s: AppState, fetch: Result<DashboardData, string>,
                          analyse: DashboardData -> Result<AIRecommendation, string>): (t: AppState)
    ensures !t.isLoading
    ensures fetch.Err? ==>
              t == AppState(s.data, None, false, true, Some(DataFailureMessage))
    ensures fetch.Ok? && analyse(fetch.value).Ok? ==>
              t == AppState(Some(fetch.value), Some(analyse(fetch.value).value), false, false, None)
    ensures fetch.Ok? && analyse(fetch.value).Err? ==>
              t == AppState(Some(fetch.value), Some(FallbackRecommendation), false, false, Some(AiFailureMessage))
  {
    match fetch
    case Err(_) =>
      Started(s).(error := Some(DataFailureMessage), isLoading := false)
    case Ok(d) =>
      var waiting := AwaitingAnalysis(s, d);
      var answered :=
        match analyse(d)
        case Ok(rec) => waiting.(aiRecommendation := Some(rec))
        case Err(_) => waiting.(error := Some(AiFailureMessage), aiRecommendation := Some(FallbackRecommendation));
      answered.(isAiLoading := false, isLoading := false)
  }

  /** JavaScript truthiness of the error: present and not empty. */
  predicate HasError(s: AppState) {
    s.error.Some? && s.error.value != ""
  }

  /** Whether the refresh button is enabled: exactly when the analysis is not loading. */
  predicate RefreshEnabled(s: AppState) {
    !s.isAiLoading
  }

  /** What the application renders. `Blank` is the empty page shown when none of the three cases applies. */
  datatype Screen =
    | LoadingScreen
    | ErrorScreen(message: string)
    | DashboardScreen(data: DashboardData, advisor: AdvisorPanel, refreshEnabled: bool)
    | Blank

  /**
   * The screen for a state, in priority order: the loading screen while the
   * first snapshot is awaited, then the error screen while there is an error
   * and no snapshot, and otherwise the dashboard whenever a snapshot exists.
   */
  function ScreenOf(s: AppState): (r: Screen)
    ensures r.LoadingScreen? <==> s.isLoading && s.data.None?
    ensures r.ErrorScreen? <==> !s.isLoading && HasError(s) && s.data.None?
    ensures r.ErrorScreen? ==> r.message == s.error.value
    ensures r.DashboardScreen? <==> s.data.Some?
    ensures r.DashboardScreen? ==>
              && r.data == s.data.value
              && r.advisor == Panel(s.aiRecommendation, s.isAiLoading)
              && (r.refreshEnabled <==> RefreshEnabled(s))
  {
    if s.isLoading && s.data.None? then LoadingScreen
    else if HasError(s) && s.data.None? then ErrorScreen(s.error.value)
    else if s.data.Some? then DashboardScreen(s.data.value, Panel(s.aiRecommendation, s.isAiLoading), RefreshEnabled(s))
    else Blank
  }

  /** The first render shows the loading screen. */
  lemma InitialScreenIsLoading()
    ensures ScreenOf(InitialState) == LoadingScreen
  {
  }

  /** After any load, from any state, the page is never blank. */
  lemma LoadNeverBlank(s: AppState, fetch: Result<DashboardData, string>,
                       analyse: DashboardData -> Result<AIRecommendation, string>)
    ensures ScreenOf(LoadTransition(s, fetch, analyse)) != Blank
  {
  }

  /** A refresh started over a snapshot keeps the dashboard on screen, with the advisor placeholder and the refresh button disabled. */
  lemma RefreshKeepsDashboard(s: AppState)
    requires s.data.Some?
    ensures ScreenOf(Started(s)) == DashboardScreen(s.data.value, LoadingPlaceholder, false)
  {
  }

  /** While the analysis is awaited, the new snapshot is already on screen beside the advisor placeholder. */
  lemma AwaitingShowsNewSnapshot(s: AppState, d: DashboardData)
    ensures ScreenOf(AwaitingAnalysis(s, d)) == DashboardScreen(d, LoadingPlaceholder, false)
  {
  }

  /** A successful load shows the snapshot and the analysis, and enables the refresh button. */
  lemma SuccessShowsAnalysis(s: AppState, d: DashboardData, rec: AIRecommendation,
                             analyse: DashboardData -> Result<AIRecommendation, string>)
    requires analyse(d) == Ok(rec)
    ensures var r := ScreenOf(LoadTransition(s, Ok(d), analyse));
            r.DashboardScreen? && r.data == d && r.refreshEnabled
            && r.advisor == RecommendationCard(Classify(rec.recommendation), DisplayedLabel(rec.recommendation), rec.justification)
  {
  }

  /** A failed analysis shows the snapshot with the "ERRO" verdict and the fallback justification, and enables the refresh button. */
  lemma AiFailureShowsErrorVerdict(s: AppState, d: DashboardData,
                                   analyse: DashboardData -> Result<AIRecommendation, string>)
    requires analyse(d).Err?
    ensures ScreenOf(LoadTransition(s, Ok(d), analyse))
            == DashboardScreen(d, RecommendationCard(Error, "ERRO", FallbackJustification), true)
  {
  }

  /** The analysis failure message is stored but never reaches the screen: it is set only when a snapshot exists. */
  lemma AiErrorNeverShown(s: AppState, fetch: Result<DashboardData, string>,
                          analyse: DashboardData -> Result<AIRecommendation, string>)
    ensures ScreenOf(LoadTransition(s, fetch, analyse)) != ErrorScreen(AiFailureMessage)
  {
  }

  /**
   * A failed fetch leaves the refresh button disabled. With no earlier
   * snapshot the error screen shows the data failure message; with one, the
   * stale snapshot stays on screen beside the advisor placeholder and the
   * message is not shown.
   */
  lemma DataFailureDisablesRefresh(s: AppState, fetch: Result<DashboardData, string>,
                                   analyse: DashboardData -> Result<AIRecommendation, string>)
    requires fetch.Err?
    ensures var t := LoadTransition(s, fetch, analyse);
            && !RefreshEnabled(t)
            && ScreenOf(t) == if s.data.Some? then DashboardScreen(s.data.value, LoadingPlaceholder, false)
                              else ErrorScreen(DataFailureMessage)
  {
  }

  /** The component, with its state in fields that `loadData` updates one setter at a time. */
  class AppComponent {
    var data: Option<DashboardData>
    var aiRecommendation: Option<AIRecommendation>
    var isLoading: bool
    var isAiLoading: bool
    var error: Option<string>

    /** The five fields as one value. */
    function State(): AppState
      reads this
    {
      AppState(data, aiRecommendation, isLoading, isAiLoading, error)
    }

    /** The initial `useState` values. */
    constructor ()
      ensures State() == InitialState
    {
      data := None;
      aiRecommendation := None;
      isLoading := true;
      isAiLoading := true;
      error := None;
    }

    /** `loadData`: the setters in the order the source calls them, with the two awaited outcomes as inputs. */
    method LoadData(fetch: Result<DashboardData, string>,
                    analyse: DashboardData -> Result<AIRecommendation, string>)
      modifies this
      ensures State() == LoadTransition(old(State()), fetch, analyse)
    {
      isLoading := true;
      isAiLoading := true;
      error := None;
      aiRecommendation := None;
      match fetch {
        case Ok(d) =>
          data := Some(d);
          match analyse(d) {
            case Ok(rec) =>
              aiRecommendation := Some(rec);
            case Err(_) =>
              error := Some(AiFailureMessage);
              aiRecommendation := Some(FallbackRecommendation);
          }
          isAiLoading := false;
        case Err(_) =>
          error := Some(DataFailureMessage);
      }
      isLoading := false;
    }

    /** The screen the component renders for its current state. */
    function Render(): (r: Screen)
      reads this
      ensures r.DashboardScreen? <==> data.Some?
    {
      ScreenOf(State())
    }
  }
}
