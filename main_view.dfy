/**
 * The panel-selection logic of the application's main view: which AI-response
 * panel and which search panel are shown for the current values of the shared
 * channels, and the one state change the view makes (the stop button).
 * Layout, styling and Markdown rendering are not modelled; a panel is
 * described by its kind, its heading and the data it displays.
 */
module MainView {
  import opened Wrappers

  /** Progress of AI text generation, in pipeline order. */
  datatype TextGenerationState =
    | Idle
    | AwaitingSearchResults
    | LoadingModel
    | PreparingToGenerate
    | Generating
    | Interrupted
    | Completed
    | Failed

  /** Progress of the web search. */
  datatype SearchState = SearchIdle | SearchRunning | SearchFailed | SearchCompleted

  /** One search hit as published on the search-results channel. */
  datatype SearchResult = SearchResult(title: string, snippet: string, url: string)

  /** Status shown by the model-loading progress bar. */
  datatype ProgressStatus = StatusSuccess | StatusActive

  /** What the AI section shows. */
  datatype AiPanel =
    | ResponsePanel(heading: string, stopButton: bool, text: string)
    | LoadingPanel(heading: string, percent: int, strokeColor: string, status: ProgressStatus)
    | PlaceholderPanel(heading: string)
    | FailurePanel(heading: string, warning: string)

  /** What the search section shows. */
  datatype SearchPanel =
    | SearchingPanel(heading: string)
    | NoResultsPanel(heading: string, notice: string)
    | ResultsPanel(heading: string, results: seq<SearchResult>, descriptions: map<string, string>)

  /** Both sections of the view; `None` is a section React renders as `null`. */
  datatype Screen = Screen(aiSection: Option<AiPanel>, searchSection: Option<SearchPanel>)

  const GeneratingHeading := "Generating AI Response..."
  const InterruptedHeading := "AI Response (Interrupted)"
  const ResponseHeading := "AI Response"
  const LoadingModelHeading := "Loading AI..."
  const AwaitingHeading := "Awaiting search results..."
  const PreparingHeading := "Preparing AI response..."
  const PlaceholderFallbackHeading := "Loading..."
  const GenerationFailedWarning := "Failed to generate response"
  const SearchingHeading := "Searching the web..."
  const SearchResultsHeading := "Search Results"
  const NoResultsNotice := "No results found"
  const CompleteStrokeColor := "#52c41a"
  const ActiveStrokeColor := "#3385ff"

  /**
   * Heading above the response text: its own heading for `Generating` and
   * for `Interrupted`, and "AI Response" for every other state.
   */
  function ResponseHeadingFor(state: TextGenerationState): (heading: string)
    ensures heading == GeneratingHeading <==> state == Generating
    ensures heading == InterruptedHeading <==> state == Interrupted
    ensures heading == ResponseHeading <==> state != Generating && state != Interrupted
  {
    match state
    case Generating => GeneratingHeading
    case Interrupted => InterruptedHeading
    case _ => ResponseHeading
  }

  /**
   * Heading above the placeholder paragraph: its own heading for each of the
   * two waiting states, and "Loading..." for every other state.
   */
  function PlaceholderHeadingFor(state: TextGenerationState): (heading: string)
    ensures heading == AwaitingHeading <==> state == AwaitingSearchResults
    ensures heading == PreparingHeading <==> state == PreparingToGenerate
    ensures heading == PlaceholderFallbackHeading <==> state != AwaitingSearchResults && state != PreparingToGenerate
  {
    match state
    case AwaitingSearchResults => AwaitingHeading
    case PreparingToGenerate => PreparingHeading
    case _ => PlaceholderFallbackHeading
  }

  /**
   * Loading counts as complete when the progress reads 0 or 100: for a
   * percentage, exactly when no download is under way.
   */
  function IsLoadingComplete(progress: int): (complete: bool)
    ensures 0 <= progress <= 100 ==> (complete <==> !(0 < progress < 100))
    ensures complete ==> progress == 0 || progress == 100
  {
    progress == 100 || progress == 0
  }

  /**
   * The progress bar shown while the model loads: it shows the progress,
   * and reads "success" in green when loading is complete, "active" in blue
   * otherwise.
   */
  function LoadingPanelFor(progress: int): (p: AiPanel)
    ensures p.LoadingPanel? && p.heading == LoadingModelHeading && p.percent == progress
    ensures p.status == StatusSuccess <==> progress == 0 || progress == 100
    ensures p.strokeColor == (if p.status == StatusSuccess then CompleteStrokeColor else ActiveStrokeColor)
  {
    var complete := IsLoadingComplete(progress);
    LoadingPanel(LoadingModelHeading, progress,
                 if complete then CompleteStrokeColor else ActiveStrokeColor,
                 if complete then StatusSuccess else StatusActive)
  }

  /**
   * The inner dispatch on the generation state. Its fallback (`None`) is
   * taken by `Idle` alone, which the enclosing dispatch never passes in.
   */
  function AiPanelFor(state: TextGenerationState, progress: int, response: string): (r: Option<AiPanel>)
    ensures r.None? <==> state == Idle
  {
    match state
    case Generating | Interrupted | Completed =>
      Some(ResponsePanel(ResponseHeadingFor(state), state == Generating, response))
    case LoadingModel =>
      Some(LoadingPanelFor(progress))
    case AwaitingSearchResults | PreparingToGenerate =>
      Some(PlaceholderPanel(PlaceholderHeadingFor(state)))
    case Failed =>
      Some(FailurePanel(ResponseHeading, GenerationFailedWarning))
    case Idle =>
      None
  }

  /** The AI section: rendered only when AI responses are enabled and generation is not idle. */
  function AiSection(disableAi: bool, state: TextGenerationState, progress: int, response: string): (r: Option<AiPanel>)
    ensures r.Some? <==> !disableAi && state != Idle
    ensures r.Some? ==> Some(r.value) == AiPanelFor(state, progress, response)
  {
    if !disableAi && state != Idle then AiPanelFor(state, progress, response) else None
  }

  /** The search section: hidden while the search is idle. */
  function SearchSection(state: SearchState, results: seq<SearchResult>, descriptions: map<string, string>): (r: Option<SearchPanel>)
    ensures r.None? <==> state == SearchIdle
  {
    match state
    case SearchRunning => Some(SearchingPanel(SearchingHeading))
    case SearchFailed => Some(NoResultsPanel(SearchResultsHeading, NoResultsNotice))
    case SearchCompleted => Some(ResultsPanel(SearchResultsHeading, results, descriptions))
    case SearchIdle => None
  }

  /** Every state other than `Idle` selects a panel, so the inner fallback is unreachable. */
  lemma NonIdleStateHasPanel(state: TextGenerationState, progress: int, response: string)
    requires state != Idle
    ensures AiSection(false, state, progress, response).Some?
  {
  }

  /**
   * The response text is shown exactly in `Generating`, `Interrupted` and
   * `Completed`, with the three headings, and it is the response channel's text.
   */
  lemma ResponseShownExactly(disableAi: bool, state: TextGenerationState, progress: int, response: string)
    ensures var r := AiSection(disableAi, state, progress, response);
      (r.Some? && r.value.ResponsePanel?) <==> (!disableAi && state in {Generating, Interrupted, Completed})
    ensures var r := AiSection(disableAi, state, progress, response);
      r.Some? && r.value.ResponsePanel? ==>
        r.value.text == response &&
        r.value.heading == (if state == Generating then GeneratingHeading
                            else if state == Interrupted then InterruptedHeading
                            else ResponseHeading)
  {
  }

  /** The stop button appears in `Generating` and in no other state. */
  lemma StopButtonOnlyWhileGenerating(disableAi: bool, state: TextGenerationState, progress: int, response: string)
    ensures var r := AiSection(disableAi, state, progress, response);
      (r.Some? && r.value.ResponsePanel? && r.value.stopButton) <==> (!disableAi && state == Generating)
  {
  }

  /**
   * While the model loads, the bar shows the progress; its status is
   * "success" when the progress is 0 or 100 and "active" otherwise.
   */
  lemma LoadingModelStatus(progress: int, response: string)
    ensures var r := AiSection(false, LoadingModel, progress, response);
      r.Some? && r.value.LoadingPanel? &&
      r.value.heading == LoadingModelHeading && r.value.percent == progress &&
      (r.value.status == StatusSuccess <==> progress == 0 || progress == 100) &&
      (r.value.status == StatusSuccess <==> r.value.strokeColor == CompleteStrokeColor)
  {
  }

  /** The two waiting states show headed placeholders; `Failed` shows the warning. */
  lemma WaitingAndFailedPanels(progress: int, response: string)
    ensures AiSection(false, AwaitingSearchResults, progress, response) == Some(PlaceholderPanel(AwaitingHeading))
    ensures AiSection(false, PreparingToGenerate, progress, response) == Some(PlaceholderPanel(PreparingHeading))
    ensures AiSection(false, Failed, progress, response) == Some(FailurePanel(ResponseHeading, GenerationFailedWarning))
  {
  }

  /**
   * Distinct non-idle states never select the same panel, whatever the
   * progress and response text: the view tells every state apart.
   */
  lemma PanelDeterminesState(s1: TextGenerationState, p1: int, r1: string,
                                s2: TextGenerationState, p2: int, r2: string)
    requires s1 != Idle && s2 != Idle
    requires AiSection(false, s1, p1, r1).value.heading == AiSection(false, s2, p2, r2).value.heading
    requires AiSection(false, s1, p1, r1).value.ResponsePanel? == AiSection(false, s2, p2, r2).value.ResponsePanel?
    ensures s1 == s2
  {
  }

  /** The search section by search state. */
  lemma SearchPanels(results: seq<SearchResult>, descriptions: map<string, string>)
    ensures SearchSection(SearchRunning, results, descriptions) == Some(SearchingPanel(SearchingHeading))
    ensures SearchSection(SearchFailed, results, descriptions) == Some(NoResultsPanel(SearchResultsHeading, NoResultsNotice))
    ensures SearchSection(SearchCompleted, results, descriptions) == Some(ResultsPanel(SearchResultsHeading, results, descriptions))
  {
  }

  /** A failed generation and a failed search show different messages under different headings. */
  lemma FailureKindsDistinguishable(progress: int, response: string, results: seq<SearchResult>, descriptions: map<string, string>)
    ensures var ai := AiSection(false, Failed, progress, response).value;
      var search := SearchSection(SearchFailed, results, descriptions).value;
      ai.warning != search.notice && ai.heading != search.heading
  {
  }

  /** The channels the view subscribes to, as one mutable store. */
  class Channels {
    var response: string
    var searchResults: seq<SearchResult>
    var urlsDescriptions: map<string, string>
    var textGenerationState: TextGenerationState
    var searchState: SearchState
    var modelLoadingProgress: int

    constructor (response: string, searchResults: seq<SearchResult>, urlsDescriptions: map<string, string>,
                 textGenerationState: TextGenerationState, searchState: SearchState, modelLoadingProgress: int)
      ensures this.response == response && this.searchResults == searchResults
      ensures this.urlsDescriptions == urlsDescriptions && this.textGenerationState == textGenerationState
      ensures this.searchState == searchState && this.modelLoadingProgress == modelLoadingProgress
    {
      this.response := response;
      this.searchResults := searchResults;
      this.urlsDescriptions := urlsDescriptions;
      this.textGenerationState := textGenerationState;
      this.searchState := searchState;
      this.modelLoadingProgress := modelLoadingProgress;
    }

    /**
     * What the view renders from the current channel values and the
     * disable-AI setting: the AI section exactly when AI is enabled and
     * generation is not idle, the search section exactly when the search is
     * not idle.
     */
    function View(disableAi: bool): (v: Screen)
      reads this
      ensures v.aiSection.Some? <==> !disableAi && textGenerationState != Idle
      ensures v.aiSection.Some? ==> Some(v.aiSection.value) == AiPanelFor(textGenerationState, modelLoadingProgress, response)
      ensures v.searchSection.None? <==> searchState == SearchIdle
    {
      Screen(AiSection(disableAi, textGenerationState, modelLoadingProgress, response),
             SearchSection(searchState, searchResults, urlsDescriptions))
    }

    /**
     * The stop button's handler: publishes `Interrupted` and touches no other
     * channel. The view then shows the same response text under the
     * interrupted heading, without the button, and the same search panel.
     */
    method StopGenerating()
      modifies this`textGenerationState
      ensures textGenerationState == Interrupted
      ensures response == old(response) && searchState == old(searchState)
      ensures searchResults == old(searchResults) && urlsDescriptions == old(urlsDescriptions)
      ensures modelLoadingProgress == old(modelLoadingProgress)
      ensures View(false) == Screen(Some(ResponsePanel(InterruptedHeading, false, response)), old(View(false).searchSection))
      ensures View(true) == old(View(true))
    {
      textGenerationState := Interrupted;
    }
  }
}
