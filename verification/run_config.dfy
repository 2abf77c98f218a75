/** The `RunnableConfig` dictionary nodes receive, reduced to its optional "configurable"
    section. */
module RunConfig {
  import opened Wrappers

  /** A raw value found in the environment (always text) or in the run config. */
  datatype Raw = Text(s: string) | Int(n: int) | Null

  datatype RunnableConfig = RunnableConfig(configurable: Option<map<string, Raw>>)

  /** The "configurable" section; a missing config or section counts as `{}`. */
  function Configurable(config: Option<RunnableConfig>): map<string, Raw> {
    if config.Some? && config.value.configurable.Some? then config.value.configurable.value else map[]
  }

  /** `config.get('configurable', {}).get("model_name", "openai")`: a present key wins, even
      when it holds `None`. */
  function ModelName(config: Option<RunnableConfig>): (r: Raw)
    ensures "model_name" !in Configurable(config) ==> r == Text("openai")
    ensures "model_name" in Configurable(config) ==> r == Configurable(config)["model_name"]
  {
    var c := Configurable(config);
    if "model_name" in c then c["model_name"] else Text("openai")
  }
}
