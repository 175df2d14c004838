/**
 * The table of model profiles the browser client can load: one profile per
 * device class, each naming a model file, its context size, its sampling
 * settings and the template that turns a query and the search text into a
 * chat prompt.
 */
module ModelProfiles {
  import opened Wrappers
  import opened WllamaTypes

  /** The keys of the profile table. */
  datatype ProfileName = Mobile | MobileFallback | Desktop

  /** Precision of the attention key/value cache. */
  datatype CacheType = F16 | Q8_0 | Q4_0

  /**
   * The prompt builder attached to a profile. Each profile has its own
   * builder function, and all four are textually identical; they are
   * represented by the one template they all implement, so that profiles
   * can be compared field by field.
   */
  datatype PromptTemplate = ChatMarkup

  datatype ModelProfile = ModelProfile(
    url: string,
    promptTemplate: PromptTemplate,
    stopStrings: seq<string>,
    cacheType: CacheType,
    contextSize: int,
    shouldIncludeUrlsOnPrompt: bool,
    sampling: SamplingConfig)

  /** The whole table, one profile per key. */
  datatype ModelTable = ModelTable(mobile: ModelProfile, mobileFallback: ModelProfile, desktop: ModelProfile)

  const Qwen2Url := "https://huggingface.co/Felladrin/gguf-q5_k_m-imat-qwen2-0.5b-instruct/resolve/main/qwen2-0-00001-of-00003.gguf"
  const Qwen15Url := "https://huggingface.co/Felladrin/gguf-sharded-Qwen1.5-0.5B-Chat_llamafy/resolve/main/Qwen1.5-0.5B-Chat_llamafy.IQ3_XXS.shard-00001-of-00003.gguf"
  const ArceeLiteUrl := "https://huggingface.co/Felladrin/gguf-q5_k_l-imat-arcee-lite/resolve/main/arcee-lite-Q5_K_L.shard-00001-of-00006.gguf"

  /** The one sampling record every profile shares; its values are kept as written and not interpreted. */
  const CommonSamplingConfig := SamplingConfig([
    ("temp", "0.2"), ("dynatemp_range", "0.15"), ("top_k", "0"), ("top_p", "1"),
    ("min_p", "0.1"), ("typical_p", "0.85"), ("penalty_repeat", "1.176"),
    ("penalty_last_n", "-1"), ("mirostat", "2"), ("mirostat_tau", "3.5")])

  /** Closes the system turn that holds the search text and opens the user turn. */
  const UserTurnOpening := "<|im_end|>\n<|im_start|>user\n"
  /** Closes the user turn and opens the assistant turn the model completes. */
  const AssistantTurnOpening := "<|im_end|>\n<|im_start|>assistant\n"

  /** The profile with the given model file and context size; every other field is shared. */
  function Profile(url: string, contextSize: int): ModelProfile {
    ModelProfile(url, ChatMarkup, [], F16, contextSize, false, CommonSamplingConfig)
  }

  /**
   * The table as built when the client module is initialised: a value
   * computed from the thread count read at that moment, whose desktop entry
   * depends on that count.
   */
  function AvailableModels(numberOfThreads: int): (t: ModelTable)
    ensures t.mobile.url == Qwen2Url && t.mobileFallback.url == Qwen15Url
    ensures t.desktop.url == (if numberOfThreads < 4 then Qwen2Url else ArceeLiteUrl)
  {
    ModelTable(
      Profile(Qwen2Url, 2048),
      Profile(Qwen15Url, 1280),
      if numberOfThreads < 4 then Profile(Qwen2Url, 2048) else Profile(ArceeLiteUrl, 2048))
  }

  /** Looks a profile up by its key. */
  function Lookup(t: ModelTable, name: ProfileName): ModelProfile {
    match name
    case Mobile => t.mobile
    case MobileFallback => t.mobileFallback
    case Desktop => t.desktop
  }

  /** The profile's `buildPrompt`: the search text, then the user turn with the query, then the opened assistant turn. */
  function BuildPrompt(profile: ModelProfile, query: string, searchResults: string): (prompt: string)
    ensures |prompt| == |searchResults| + |UserTurnOpening| + |query| + |AssistantTurnOpening|
  {
    match profile.promptTemplate
    case ChatMarkup => searchResults + UserTurnOpening + query + AssistantTurnOpening
  }

  /**
   * Recovers the query from a prompt, given the search text the prompt was
   * built from; `None` when the prompt does not have the template's shape.
   */
  function QueryOf(prompt: string, searchResults: string): (query: Option<string>)
    ensures query.Some? ==> |prompt| == |searchResults| + |UserTurnOpening| + |query.value| + |AssistantTurnOpening|
  {
    var head := searchResults + UserTurnOpening;
    if |head| + |AssistantTurnOpening| <= |prompt|
       && prompt[..|head|] == head
       && prompt[|prompt| - |AssistantTurnOpening|..] == AssistantTurnOpening
    then Some(prompt[|head|..|prompt| - |AssistantTurnOpening|])
    else None
  }

  /** With few threads the desktop entry is the mobile profile, field for field. */
  lemma DesktopIsMobileOnFewThreads(numberOfThreads: int)
    requires numberOfThreads < 4
    ensures AvailableModels(numberOfThreads).desktop == AvailableModels(numberOfThreads).mobile
  {
  }

  /** With four threads or more the desktop entry differs from the mobile profile in its model file only. */
  lemma DesktopIsArceeLiteOnManyThreads(numberOfThreads: int)
    requires numberOfThreads >= 4
    ensures var t := AvailableModels(numberOfThreads);
      t.desktop == t.mobile.(url := ArceeLiteUrl) && t.desktop != t.mobile
  {
  }

  /** Only the fallback profile has the smaller context. */
  lemma ContextSizes(numberOfThreads: int, name: ProfileName)
    ensures Lookup(AvailableModels(numberOfThreads), name).contextSize == (if name == MobileFallback then 1280 else 2048)
  {
  }

  /** The fields all profiles share. */
  lemma SharedSettings(numberOfThreads: int, name: ProfileName)
    ensures var p := Lookup(AvailableModels(numberOfThreads), name);
      p.stopStrings == [] && p.cacheType == F16 && !p.shouldIncludeUrlsOnPrompt &&
      p.sampling == CommonSamplingConfig && p.promptTemplate == ChatMarkup
  {
  }

  /**
   * Every profile's prompt is the search text followed by the user turn with
   * the query and the opened assistant turn: it begins with the search text
   * and ends with the assistant marker.
   */
  lemma PromptShape(numberOfThreads: int, name: ProfileName, query: string, searchResults: string)
    ensures var prompt := BuildPrompt(Lookup(AvailableModels(numberOfThreads), name), query, searchResults);
      prompt == searchResults + "<|im_end|>\n<|im_start|>user\n" + query + "<|im_end|>\n<|im_start|>assistant\n" &&
      searchResults <= prompt &&
      prompt[|prompt| - |AssistantTurnOpening|..] == AssistantTurnOpening
  {
  }

  /** The prompt depends on the query and the search text only, not on the profile or the thread count. */
  lemma PromptIndependentOfProfile(n1: int, name1: ProfileName, n2: int, name2: ProfileName, query: string, searchResults: string)
    ensures BuildPrompt(Lookup(AvailableModels(n1), name1), query, searchResults)
         == BuildPrompt(Lookup(AvailableModels(n2), name2), query, searchResults)
  {
  }

  /** The query can be read back from every prompt. */
  lemma QueryRoundTrip(profile: ModelProfile, query: string, searchResults: string)
    ensures QueryOf(BuildPrompt(profile, query, searchResults), searchResults) == Some(query)
  {
  }

  /** Whatever the reader recovers rebuilds the prompt it came from. */
  lemma QueryOfSound(profile: ModelProfile, prompt: string, searchResults: string)
    requires QueryOf(prompt, searchResults).Some?
    ensures BuildPrompt(profile, QueryOf(prompt, searchResults).value, searchResults) == prompt
  {
  }

  /** For fixed search text, distinct queries give distinct prompts. */
  lemma {:induction false} PromptDeterminesQuery(profile: ModelProfile, q1: string, q2: string, searchResults: string)
    requires BuildPrompt(profile, q1, searchResults) == BuildPrompt(profile, q2, searchResults)
    ensures q1 == q2
  {
    QueryRoundTrip(profile, q1, searchResults);
    QueryRoundTrip(profile, q2, searchResults);
  }
}
