/** Assembling the agent's tool list from the process environment. */
module AgentTools {
  import opened ChatModels

  /** The tools that are always available, in registration order. */
  const BaseTools: seq<Tool> := [CurrentUtcTime, CurrentLocalTime, LocalTimeZone, ArxivSearch, WikipediaSearch]

  /** `os.getenv(key)` is truthy: set and non-empty. */
  predicate EnvSet(env: map<string, string>, key: string) {
    key in env && env[key] != ""
  }

  predicate GoogleConfigured(env: map<string, string>) {
    EnvSet(env, "GOOGLE_API_KEY") && EnvSet(env, "GOOGLE_CSE_ID")
  }

  /** `init_tools`: the base tools, then Google search when both of its keys are set. */
  function InitTools(env: map<string, string>): (r: seq<Tool>)
    ensures |r| == if GoogleConfigured(env) then 6 else 5
    ensures r[..|BaseTools|] == BaseTools
    ensures GoogleWebSearch in r <==> GoogleConfigured(env)
    ensures GoogleConfigured(env) ==> r[|r| - 1] == GoogleWebSearch
    ensures forall i, j :: 0 <= i < j < |r| ==> r[i] != r[j]
  {
    if GoogleConfigured(env) then BaseTools + [GoogleWebSearch] else BaseTools
  }

  /** The registered names are distinct too, so a name picks out one tool. */
  lemma ToolNamesDistinct(env: map<string, string>)
    ensures forall i, j :: 0 <= i < j < |InitTools(env)| ==> InitTools(env)[i].Name() != InitTools(env)[j].Name()
  {
  }
}
