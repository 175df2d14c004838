# MiniSearch: view selection, model profiles and runtime lifecycle

MiniSearch answers a web query in the browser and streams an AI response
generated by an in-browser language model. This project models three small
pieces of its decision logic and proves what they promise.

- `MainView` (`main_view.dfy`). The main view turns the current values of the
  shared channels into a choice of panels. Those values are the generation
  state, the search state, the model-loading progress, the response text, the
  search results and the URL descriptions. The disable-AI setting is an input
  too. The AI section is shown only when AI is enabled and generation is not
  idle. Inside it, each non-idle state selects one panel: the response text
  with a heading, the loading bar, a headed placeholder, or the failure
  warning. The search section is hidden while the search is idle. Otherwise it
  shows the searching placeholder, the "no results" notice or the results
  list. The stop button is the view's one state change: it publishes
  `Interrupted` on the generation-state channel. The channels are a class
  (`Channels`) and the button handler is a method on it.
- `ModelProfiles` (`model_profiles.dfy`). The client's table of model
  profiles, keyed `mobile`, `mobileFallback` and `desktop`: four profile
  records, because the desktop entry has two alternatives. The desktop entry is picked
  from the thread count read when the table is built; the table is a value computed
  from that one reading. The source gives each of the four records its own
  `buildPrompt` function; the four are textually identical and are modelled
  as one value, the chat-markup template they all implement. `QueryOf` reads the query back out of a prompt.
  It is the template's inverse, used to prove that the prompt keeps the query.
- `WllamaLifecycle` (`wllama_lifecycle.dfy`). The server-side module variable
  that holds the single runtime instance. It is a class with a nullable field,
  and its three operations are methods. Each method is tied to a pure
  two-phase machine (`Next`, `Run`), about which the lifecycle lemmas are
  proved.
- `Wrappers` (`wrappers.dfy`): `Option`, and `Result`/`Outcome` for how a
  promise settles. `WllamaTypes` (`wllama_types.dfy`): opaque stand-ins for the
  library's configuration records.

Inputs the model takes as parameters: the disable-AI setting and the thread
count. Their settings module is not part of this model. The foreign runtime
(the dynamic import with `new Wllama`, `loadModelFromUrl`, `createCompletion`,
`exit`) is a class whose methods record each call together with how it
settled. How each call settles is left open (`:|`), and the holder's
contracts are stated against that recorded settlement. An asynchronous function is modelled by how its promise
settles: `Pass`/`Success` when it resolves, `Fail`/`Failure` when it rejects.

## Model

| member | source | states |
|---|---|---|
| `MainView.ResponseHeadingFor` | client/components/Main.tsx:69-78 | the response heading is "Generating AI Response..." exactly while generating, "AI Response (Interrupted)" exactly when interrupted, and "AI Response" in every other state |
| `MainView.PlaceholderHeadingFor` | client/components/Main.tsx:158-167 | the placeholder heading is "Awaiting search results..." exactly while awaiting search results, "Preparing AI response..." exactly while preparing, and the fallback "Loading..." in every other state |
| `MainView.IsLoadingComplete` | client/components/Main.tsx:129-131 | for a percentage, loading counts as complete exactly when it is not strictly between 0 and 100 |
| `MainView.LoadingPanelFor` | client/components/Main.tsx:128-149 | the loading branch shows the heading "Loading AI..." and the progress; its status is success iff the progress is 0 or 100, with the green stroke colour for success and the blue one otherwise |
| `MainView.AiPanelFor` | client/components/Main.tsx:63-187 | the inner dispatch returns no panel for `Idle` only, so its `otherwise(() => null)` is unreachable from the guarded call |
| `MainView.AiSection` | client/components/Main.tsx:60-190 | the AI section is rendered iff AI is not disabled and the state is not `idle`; it then shows the inner dispatch's panel |
| `MainView.SearchSection` | client/components/Main.tsx:191-228 | the search section is absent iff the search state is `idle` |
| `MainView.NonIdleStateHasPanel` | client/components/Main.tsx:63-187 | with AI enabled, every non-idle generation state yields a panel |
| `MainView.ResponseShownExactly` | client/components/Main.tsx:64-123 | the response text is shown iff AI is enabled and the state is generating, interrupted or completed; it is the response channel's text, under "Generating AI Response...", "AI Response (Interrupted)" or "AI Response" respectively |
| `MainView.StopButtonOnlyWhileGenerating` | client/components/Main.tsx:81-94 | the stop button is present iff AI is enabled and the state is `generating` |
| `MainView.LoadingModelStatus` | client/components/Main.tsx:128-149 | in `loadingModel` the bar is headed "Loading AI..." and shows the progress; its status is success iff the progress is 0 or 100, and its colour follows the status |
| `MainView.WaitingAndFailedPanels` | client/components/Main.tsx:150-186 | `awaitingSearchResults` and `preparingToGenerate` show placeholders headed "Awaiting search results..." and "Preparing AI response..."; `failed` shows "Failed to generate response" under "AI Response" |
| `MainView.PanelDeterminesState` | client/components/Main.tsx:63-187 | two non-idle states whose panels have the same heading and the same kind (response or not) are the same state: every state is told apart on screen |
| `MainView.SearchPanels` | client/components/Main.tsx:194-225 | `running` shows "Searching the web...", `failed` shows "No results found", `completed` shows the results list built from the results and the URL descriptions |
| `MainView.FailureKindsDistinguishable` | client/components/Main.tsx:173-215 | a failed generation and a failed search show different messages under different headings |
| `MainView.Channels.constructor` | client/components/Main.tsx:30-37 | the store holds the channel values it is given |
| `MainView.Channels.View` | client/components/Main.tsx:39-234 | the whole render: the AI section is present iff AI is enabled and generation is not idle, and it is then the inner dispatch's panel; the search section is absent iff the search is idle |
| `MainView.Channels.StopGenerating` | client/components/Main.tsx:86-88 | the handler sets the generation state to `interrupted` and leaves every other channel alone; with AI enabled the view then shows the same response under "AI Response (Interrupted)" without the button, and with AI disabled nothing visible changes |
| `ModelProfiles.AvailableModels` | client/modules/wllama.ts:50-115 | `mobile` and `mobileFallback` have fixed model files; `desktop` has the qwen2 file below 4 threads and the arcee-lite file otherwise |
| `ModelProfiles.BuildPrompt` | client/modules/wllama.ts:63-67 | the prompt is as long as the search text, the query and the two turn markers together |
| `ModelProfiles.QueryOf` | client/modules/wllama.ts:63-67 | a query read back from a prompt accounts for all of the prompt's length |
| `ModelProfiles.DesktopIsMobileOnFewThreads` | client/modules/wllama.ts:87-101 | below 4 threads the desktop profile equals `mobile` field for field |
| `ModelProfiles.DesktopIsArceeLiteOnManyThreads` | client/modules/wllama.ts:87-114 | from 4 threads up, the desktop profile is `mobile` with the arcee-lite model file and nothing else changed, so it differs from `mobile` |
| `ModelProfiles.ContextSizes` | client/modules/wllama.ts:61-114 | `mobileFallback` has context 1280, every other profile 2048, whatever the thread count |
| `ModelProfiles.SharedSettings` | client/modules/wllama.ts:61-114 | every profile has no stop strings, cache type f16, URLs left out of the prompt, the shared sampling record and the shared prompt template |
| `ModelProfiles.PromptShape` | client/modules/wllama.ts:63-108 | every profile's prompt is the search text, the end-of-turn marker, the opened user turn, the query, the end-of-turn marker and the opened assistant turn; it begins with the search text and ends with the assistant marker |
| `ModelProfiles.PromptIndependentOfProfile` | client/modules/wllama.ts:63-108 | the prompt depends on the query and the search text only, not on the profile or the thread count |
| `ModelProfiles.QueryRoundTrip` | client/modules/wllama.ts:63-67 | reading the query back from a built prompt, given its search text, returns the query |
| `ModelProfiles.QueryOfSound` | client/modules/wllama.ts:63-67 | whatever query is read back from a prompt rebuilds exactly that prompt |
| `ModelProfiles.PromptDeterminesQuery` | client/modules/wllama.ts:63-67 | with the same search text, different queries give different prompts |
| `WllamaLifecycle.Error.Message` | src/modules/wllama.ts:46 | the holder's own rejection carries the message "Wllama is not initialized."; a rejection passed on from the runtime carries the runtime's message, which is not modelled |
| `WllamaLifecycle.Wllama.constructor` | src/modules/wllama.ts:35 | a new runtime instance has had no calls made on it |
| `WllamaLifecycle.Wllama.LoadModelFromUrl` | src/modules/wllama.ts:37 | the load call is recorded with its URL, its options and whether it succeeded; the outcome itself is left open |
| `WllamaLifecycle.Wllama.CreateCompletion` | src/modules/wllama.ts:48-52 | the completion call is recorded with its prompt, its options and its result, which is some text or a runtime failure |
| `WllamaLifecycle.Wllama.Exit` | src/modules/wllama.ts:58 | the exit call is recorded with whether it succeeded; the outcome itself is left open |
| `WllamaLifecycle.Next` | src/modules/wllama.ts:28-60 | an operation fails as "not initialized" iff there is no instance and it is not an initialisation; an initialisation whose import or construction rejects leaves the phase as it was and fails; one that constructs always leaves an instance, and its promise rejects iff the load does; only a successful exit removes the instance; a completion or exit fails iff there is no instance or the runtime call fails |
| `WllamaLifecycle.Run` | src/modules/wllama.ts:28-60 | a run settles one promise per operation, the first as that operation's transition prescribes |
| `WllamaLifecycle.FailsUntilInitialized` | src/modules/wllama.ts:28-56 | with no instance, any sequence of operations in which no initialisation constructs an instance leaves no instance, and every completion and exit in it fails as "not initialized" |
| `WllamaLifecycle.ExitedStaysUninitialized` | src/modules/wllama.ts:28-60 | after a successful exit, every later completion and exit fails as "not initialized" until an initialisation constructs an instance |
| `WllamaLifecycle.InitializeReopensGuards` | src/modules/wllama.ts:35-56 | after an initialisation that constructs an instance, even one whose load fails, neither a completion nor an exit fails as "not initialized" |
| `WllamaLifecycle.WllamaModule.constructor` | src/modules/wllama.ts:7 | initially no runtime instance exists and no import-and-construct step has been taken |
| `WllamaLifecycle.WllamaModule.ImportAndConstruct` | src/modules/wllama.ts:28-35 | the dynamic import and the constructor either yield a fresh instance with no calls made on it or reject; the step is logged with whether it yielded an instance |
| `WllamaLifecycle.WllamaModule.InitializeWllama` | src/modules/wllama.ts:9-38 | takes exactly one import-and-construct step, and the handle changes iff that step yielded an instance, so the instance is installed before the load and stays installed when the load fails; if the import or the construction rejects, the handle is unchanged and the call rejects; otherwise the handle holds a fresh instance, replacing any previous one without exiting it; the instance's only call is the load of the given URL with the given options (`{}` when none are given), and the call settles exactly as that load did; the phase and the outcome follow `Next` |
| `WllamaLifecycle.WllamaModule.RunCompletion` | src/modules/wllama.ts:40-53 | rejects with "not initialized" when no instance exists; otherwise forwards the prompt, `nPredict`, `sampling` and the token callback unchanged, and returns exactly the result the runtime's completion call settled with; never changes which instance is held; follows `Next` |
| `WllamaLifecycle.WllamaModule.ExitWllama` | src/modules/wllama.ts:55-61 | rejects with "not initialized" when no instance exists; otherwise calls `exit` once, settles as that exit did, and clears the handle iff the exit succeeded; follows `Next` |
| `WllamaLifecycle.WllamaModule.ExitThenUse` | src/modules/wllama.ts:46-60 | after a successful exit, both a completion and a second exit called at once fail as "not initialized", and the handle is null |

## Left out

- JSX layout, rsuite components, styling and Markdown rendering: panels are described by kind, heading and displayed data only.
- The search form and the query channel (client/components/Main.tsx:58): the view passes them on to a component that is not part of this model.
- The pub/sub machinery and the settings getters: the disable-AI setting and the thread count are parameters, and the channel values are fields of `Channels`.
- `Channels.StopGenerating`: notifying the channel's subscribers is not modelled; only the new channel value is.
- `initializeWllama` in client/modules/wllama.ts: it only constructs the foreign runtime and calls its load method.
- The floating-point sampling values: `SamplingConfig` keeps each setting as its literal text and nothing interprets it.
- The asset URL imports and `new URL(..., import.meta.url)` resolution: loader plumbing. The dynamic `import()` and `new Wllama(configPaths)` are modelled as one foreign step that either yields an instance or rejects; the paths argument is not modelled.
- The runtime's own behaviour (loading, token generation, exit) and the messages of its errors: foreign code, modelled only as recorded calls that settle in an unspecified way.
- `url: string | string[]`: every profile's URL is a single string, so the array form is not modelled.
- The thread count is modelled as an `int`; a non-integer count is not modelled.
- Search, model-loading and generation transitions other than the stop button: the code that drives them is not part of this model.
- Concurrency: two overlapping calls of the asynchronous operations are not modelled. Each operation is treated as settling before the next one starts. This hides one effect at src/modules/wllama.ts:58-60: an `initializeWllama` that runs while `await wllama.exit()` is pending installs a new instance, and line 60 then clears that new instance, not the one that was exited.
- `modelLoadingProgress` is modelled as an `int`; a fractional percentage is not modelled.
