/** The deep-research `Configuration`: six fields with defaults, read from the environment, then
    from the run config's "configurable" section, then the default. */
module ResearchConfig {
  import opened Wrappers
  import opened Strings
  import opened RunConfig

  datatype Field =
    | QueryGeneratorModel | ReflectionModel | AnswerModel
    | NumberOfInitialQueries | NumberOfResultsPerQuery | MaxResearchLoops

  /** A validated field value: the three model names are `str`, the rest `int`. */
  datatype Value = S(s: string) | I(i: int)

  datatype Configuration = Configuration(
    queryGeneratorModel: string,
    reflectionModel: string,
    answerModel: string,
    numberOfInitialQueries: int,
    numberOfResultsPerQuery: int,
    maxResearchLoops: int)

  predicate IsText(f: Field) {
    f.QueryGeneratorModel? || f.ReflectionModel? || f.AnswerModel?
  }

  function FieldName(f: Field): string {
    match f
    case QueryGeneratorModel => "query_generator_model"
    case ReflectionModel => "reflection_model"
    case AnswerModel => "answer_model"
    case NumberOfInitialQueries => "number_of_initial_queries"
    case NumberOfResultsPerQuery => "number_of_results_per_query"
    case MaxResearchLoops => "max_research_loops"
  }

  /** The environment variable consulted for a field: `name.upper()`. */
  function EnvName(f: Field): string {
    Upper(FieldName(f))
  }

  function Default(f: Field): Value {
    match f
    case QueryGeneratorModel => S("gpt-4o-mini")
    case ReflectionModel => S("gpt-4o-mini")
    case AnswerModel => S("gpt-4o")
    case NumberOfInitialQueries => I(1)
    case NumberOfResultsPerQuery => I(1)
    case MaxResearchLoops => I(2)
  }

  function Get(c: Configuration, f: Field): Value {
    match f
    case QueryGeneratorModel => S(c.queryGeneratorModel)
    case ReflectionModel => S(c.reflectionModel)
    case AnswerModel => S(c.answerModel)
    case NumberOfInitialQueries => I(c.numberOfInitialQueries)
    case NumberOfResultsPerQuery => I(c.numberOfResultsPerQuery)
    case MaxResearchLoops => I(c.maxResearchLoops)
  }

  /** `configurable.get(name)`: `None` when the key is absent. */
  function ConfigValue(config: Option<RunnableConfig>, f: Field): Raw {
    var c := Configurable(config);
    if FieldName(f) in c then c[FieldName(f)] else Null
  }

  /** `os.environ.get(NAME, configurable.get(name))`. */
  function RawValue(env: map<string, string>, config: Option<RunnableConfig>, f: Field): Raw {
    if EnvName(f) in env then Text(env[EnvName(f)]) else ConfigValue(config, f)
  }

  /** pydantic's validation of one passed value: text for a `str` field; an int, or text that
      spells one, for an `int` field. */
  function Coerce(f: Field, raw: Raw): (r: Result<Value>)
    requires !raw.Null?
    ensures r.Ok? && IsText(f) ==> r.value.S?
    ensures r.Ok? && !IsText(f) ==> r.value.I?
    ensures raw.Text? && IsText(f) ==> r == Ok(S(raw.s))
    ensures raw.Int? && !IsText(f) ==> r == Ok(I(raw.n))
    ensures raw.Text? && !IsText(f) ==> (r.Ok? <==> ParseInt(raw.s).Some?)
    ensures raw.Text? && !IsText(f) && ParseInt(raw.s).Some? ==> r == Ok(I(ParseInt(raw.s).value))
    ensures raw.Int? && IsText(f) ==> r.Err?
    ensures r.Err? ==> r.error == ValidationError(FieldName(f))
  {
    if IsText(f) then
      (if raw.Text? then Ok(S(raw.s)) else Err(ValidationError(FieldName(f))))
    else if raw.Int? then Ok(I(raw.n))
    else if raw.Text? && ParseInt(raw.s).Some? then Ok(I(ParseInt(raw.s).value))
    else Err(ValidationError(FieldName(f)))
  }

  /** A field's value once `None` values have been dropped and the default applies. */
  function FieldValue(env: map<string, string>, config: Option<RunnableConfig>, f: Field): Result<Value> {
    var raw := RawValue(env, config, f);
    if raw.Null? then Ok(Default(f)) else Coerce(f, raw)
  }

  /** `Configuration.from_runnable_config(config)` with the process environment `env`. */
  function FromRunnableConfig(env: map<string, string>, config: Option<RunnableConfig>): (r: Result<Configuration>)
    ensures r.Ok? <==> forall f :: FieldValue(env, config, f).Ok?
    // the environment variable wins
    ensures forall f :: r.Ok? && EnvName(f) in env ==> Coerce(f, Text(env[EnvName(f)])) == Ok(Get(r.value, f))
    // then a non-None configurable value
    ensures forall f :: r.Ok? && EnvName(f) !in env && !ConfigValue(config, f).Null? ==>
              Coerce(f, ConfigValue(config, f)) == Ok(Get(r.value, f))
    // then the declared default
    ensures forall f :: r.Ok? && EnvName(f) !in env && ConfigValue(config, f).Null? ==> Get(r.value, f) == Default(f)
  {
    var q :- FieldValue(env, config, QueryGeneratorModel);
    var m :- FieldValue(env, config, ReflectionModel);
    var a :- FieldValue(env, config, AnswerModel);
    var n :- FieldValue(env, config, NumberOfInitialQueries);
    var k :- FieldValue(env, config, NumberOfResultsPerQuery);
    var l :- FieldValue(env, config, MaxResearchLoops);
    var c := Configuration(q.s, m.s, a.s, n.i, k.i, l.i);
    assert forall f :: FieldValue(env, config, f) == Ok(Get(c, f));
    FieldSources(env, config, c);
    Ok(c)
  }

  /** Where each field of a configuration built from validated field values came from: the
      environment, else a non-None configurable value, else the default. */
  lemma FieldSources(env: map<string, string>, config: Option<RunnableConfig>, c: Configuration)
    requires forall f :: FieldValue(env, config, f) == Ok(Get(c, f))
    ensures forall f :: EnvName(f) in env ==> Coerce(f, Text(env[EnvName(f)])) == Ok(Get(c, f))
    ensures forall f :: EnvName(f) !in env && !ConfigValue(config, f).Null? ==>
              Coerce(f, ConfigValue(config, f)) == Ok(Get(c, f))
    ensures forall f :: EnvName(f) !in env && ConfigValue(config, f).Null? ==> Get(c, f) == Default(f)
  {
    forall f
      ensures EnvName(f) in env ==> Coerce(f, Text(env[EnvName(f)])) == Ok(Get(c, f))
      ensures EnvName(f) !in env && !ConfigValue(config, f).Null? ==> Coerce(f, ConfigValue(config, f)) == Ok(Get(c, f))
      ensures EnvName(f) !in env && ConfigValue(config, f).Null? ==> Get(c, f) == Default(f)
    {
      assert FieldValue(env, config, f) == Ok(Get(c, f));
    }
  }

  const Defaults := Configuration("gpt-4o-mini", "gpt-4o-mini", "gpt-4o", 1, 1, 2)

  /** With no environment overrides and no "configurable" section, every field takes its default. */
  lemma DefaultsWithoutOverrides(env: map<string, string>, config: Option<RunnableConfig>)
    requires forall f :: EnvName(f) !in env
    requires config.None? || config.value.configurable.None?
    ensures FromRunnableConfig(env, config) == Ok(Defaults)
  {
    var r := FromRunnableConfig(env, config);
    assert forall f :: FieldValue(env, config, f) == Ok(Default(f));
    assert Get(r.value, QueryGeneratorModel) == Default(QueryGeneratorModel);
    assert Get(r.value, ReflectionModel) == Default(ReflectionModel);
    assert Get(r.value, AnswerModel) == Default(AnswerModel);
    assert Get(r.value, NumberOfInitialQueries) == Default(NumberOfInitialQueries);
    assert Get(r.value, NumberOfResultsPerQuery) == Default(NumberOfResultsPerQuery);
    assert Get(r.value, MaxResearchLoops) == Default(MaxResearchLoops);
  }

  /** A missing config, a config without "configurable", and an empty section are read alike. */
  lemma MissingSectionIsEmpty(env: map<string, string>)
    ensures FromRunnableConfig(env, None) == FromRunnableConfig(env, Some(RunnableConfig(None)))
    ensures FromRunnableConfig(env, None) == FromRunnableConfig(env, Some(RunnableConfig(Some(map[]))))
  {
    var e1: Option<RunnableConfig> := None;
    var e2 := Some(RunnableConfig(None));
    var e3 := Some(RunnableConfig(Some(map[])));
    forall f
      ensures FieldValue(env, e1, f) == FieldValue(env, e2, f) == FieldValue(env, e3, f)
    {
      assert RawValue(env, e1, f) == RawValue(env, e2, f) == RawValue(env, e3, f);
    }
  }

  /** A configurable value of `None` is read as if the key were absent. */
  lemma NoneIsDropped(env: map<string, string>, c: map<string, Raw>, name: string)
    requires name in c && c[name].Null?
    ensures FromRunnableConfig(env, Some(RunnableConfig(Some(c))))
         == FromRunnableConfig(env, Some(RunnableConfig(Some(c - {name}))))
  {
    var c1 := Some(RunnableConfig(Some(c)));
    var c2 := Some(RunnableConfig(Some(c - {name})));
    forall f
      ensures FieldValue(env, c1, f) == FieldValue(env, c2, f)
    {
      assert ConfigValue(c1, f) == ConfigValue(c2, f);
    }
  }

  /** An integer field set through the environment is parsed back to the number it spells. */
  lemma EnvIntegerRoundTrip(env: map<string, string>, config: Option<RunnableConfig>, n: int)
    requires env == map[EnvName(MaxResearchLoops) := ShowInt(n)]
    ensures FromRunnableConfig(env, config).Ok? ==> FromRunnableConfig(env, config).value.maxResearchLoops == n
  {
    ParseShowInt(n);
  }
}
