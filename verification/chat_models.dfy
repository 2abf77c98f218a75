/** Choosing a chat model by provider name, as both the agent and the memory nodes do. The
    model itself is opaque: only its settings are recorded. */
module ChatModels {
  import opened Wrappers
  import opened Strings
  import opened RunConfig

  /** The tools a model can be bound to, by their registered names. */
  datatype Tool =
    | CurrentUtcTime | CurrentLocalTime | LocalTimeZone | ArxivSearch | WikipediaSearch | GoogleWebSearch
  {
    function Name(): string {
      match this
      case CurrentUtcTime => "current_utc_time"
      case CurrentLocalTime => "current_local_time"
      case LocalTimeZone => "local_time_zone"
      case ArxivSearch => "arxiv_search"
      case WikipediaSearch => "wikipedia_search"
      case GoogleWebSearch => "google_web_search"
    }
  }

  /** A `ChatOpenAI(temperature, model_name)` instance, possibly with tools bound. */
  datatype ChatModel = ChatModel(modelName: string, temperature: real, boundTools: seq<Tool>)

  /** `str(value)` of a raw configuration value, as the error message shows it. */
  function ShowRaw(v: Raw): string {
    match v
    case Text(s) => s
    case Int(n) => ShowInt(n)
    case Null => "None"
  }

  /** `_get_model`: only "openai" is served (by gpt-4o); "anthropic" is refused as not yet
      implemented, and every other name as unsupported. */
  function SelectModel(name: Raw, temperature: real): (r: Result<ChatModel>)
    ensures r.Ok? <==> name == Text("openai")
    ensures r.Ok? ==> r.value == ChatModel("gpt-4o", temperature, [])
    ensures name == Text("anthropic") ==> r.Err? && r.error.NotImplementedError?
    ensures name != Text("openai") && name != Text("anthropic") ==>
              r == Err(ValueError("Unsupported model type: " + ShowRaw(name)))
  {
    if name == Text("openai") then Ok(ChatModel("gpt-4o", temperature, []))
    else if name == Text("anthropic") then Err(NotImplementedError("Do not use Anthropic models for now"))
    else Err(ValueError("Unsupported model type: " + ShowRaw(name)))
  }

  /** Whatever the run config holds, the provider is served exactly when its "model_name" is
      absent (the default names "openai") or is "openai" itself. */
  lemma ConfiguredNameDecides(config: Option<RunnableConfig>, temperature: real)
    ensures SelectModel(ModelName(config), temperature).Ok?
            <==> "model_name" !in Configurable(config) || Configurable(config)["model_name"] == Text("openai")
  {
  }
}
