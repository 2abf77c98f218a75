/** The structured output of the memory-query generator: `MemoryAccessQuery` and the list that
    wraps it, with pydantic's validation of the model's raw answer. */
module MemorySchema {
  import opened Wrappers

  datatype MemoryType = Facts | Events | Preferences {
    function Name(): string {
      match this
      case Facts => "facts"
      case Events => "events"
      case Preferences => "preferences"
    }
  }

  datatype AccessType = Read | Write {
    function Name(): string {
      match this
      case Read => "read"
      case Write => "write"
    }
  }

  const DefaultUser := "default_user"

  datatype MemoryAccessQuery = MemoryAccessQuery(
    query: string,
    memoryType: MemoryType,
    accessType: AccessType,
    user: string,
    rationale: string)

  datatype MemoryAccessQueriesResult = MemoryAccessQueriesResult(memoryAccessQueries: seq<MemoryAccessQuery>)

  /** The fields as the model returns them, by name. */
  type RawQuery = map<string, string>

  function ParseMemoryType(s: string): (r: Option<MemoryType>)
    ensures r.Some? ==> r.value.Name() == s
    ensures forall t: MemoryType :: t.Name() == s ==> r == Some(t)
  {
    if s == "facts" then Some(Facts)
    else if s == "events" then Some(Events)
    else if s == "preferences" then Some(Preferences)
    else None
  }

  function ParseAccessType(s: string): (r: Option<AccessType>)
    ensures r.Some? ==> r.value.Name() == s
    ensures forall t: AccessType :: t.Name() == s ==> r == Some(t)
  {
    if s == "read" then Some(Read) else if s == "write" then Some(Write) else None
  }

  /** Validating one query: `query` and `rationale` are required, the two kinds must be one of
      their literals, and a missing `user` takes the default. The error names the first field
      in declaration order that fails. */
  function ValidateQuery(raw: RawQuery): (r: Result<MemoryAccessQuery>)
    ensures r.Ok? <==> && "query" in raw && "rationale" in raw
                       && "memory_type" in raw && ParseMemoryType(raw["memory_type"]).Some?
                       && "access_type" in raw && ParseAccessType(raw["access_type"]).Some?
    ensures r.Ok? ==> && r.value.query == raw["query"] && r.value.rationale == raw["rationale"]
                      && r.value.memoryType.Name() == raw["memory_type"]
                      && r.value.accessType.Name() == raw["access_type"]
    ensures r.Ok? && "user" !in raw ==> r.value.user == DefaultUser
    ensures r.Ok? && "user" in raw ==> r.value.user == raw["user"]
    ensures r.Err? ==> r.error.ValidationError?
    ensures "query" !in raw ==> r == Err(ValidationError("query"))
    ensures r.Err? ==> || (r.error.field == "query" && "query" !in raw)
                       || (r.error.field == "memory_type"
                           && ("memory_type" !in raw || ParseMemoryType(raw["memory_type"]).None?))
                       || (r.error.field == "access_type"
                           && ("access_type" !in raw || ParseAccessType(raw["access_type"]).None?))
                       || (r.error.field == "rationale" && "rationale" !in raw)
  {
    if "query" !in raw then Err(ValidationError("query"))
    else if "memory_type" !in raw || ParseMemoryType(raw["memory_type"]).None? then Err(ValidationError("memory_type"))
    else if "access_type" !in raw || ParseAccessType(raw["access_type"]).None? then Err(ValidationError("access_type"))
    else if "rationale" !in raw then Err(ValidationError("rationale"))
    else Ok(MemoryAccessQuery(
      raw["query"], ParseMemoryType(raw["memory_type"]).value, ParseAccessType(raw["access_type"]).value,
      if "user" in raw then raw["user"] else DefaultUser, raw["rationale"]))
  }

  /** A query written out field by field, as `model_dump` would. */
  function Dump(q: MemoryAccessQuery): RawQuery {
    map["query" := q.query, "memory_type" := q.memoryType.Name(), "access_type" := q.accessType.Name(),
        "user" := q.user, "rationale" := q.rationale]
  }

  /** Validation reads back exactly what was written out. */
  lemma ValidateDump(q: MemoryAccessQuery)
    ensures ValidateQuery(Dump(q)) == Ok(q)
  {
  }

  /** Leaving out `user` yields a query for the default user, otherwise unchanged. */
  lemma ValidateWithoutUser(q: MemoryAccessQuery)
    ensures ValidateQuery(Dump(q) - {"user"}) == Ok(q.(user := DefaultUser))
  {
  }

  /** Validating the wrapped list: every entry must validate, and the order is kept. */
  function ValidateResult(raws: seq<RawQuery>): (r: Result<MemoryAccessQueriesResult>)
    ensures r.Ok? <==> forall i :: 0 <= i < |raws| ==> ValidateQuery(raws[i]).Ok?
    ensures r.Ok? ==> |r.value.memoryAccessQueries| == |raws|
                      && forall i :: 0 <= i < |raws| ==> Ok(r.value.memoryAccessQueries[i]) == ValidateQuery(raws[i])
  {
    if |raws| == 0 then Ok(MemoryAccessQueriesResult([]))
    else
      var first :- ValidateQuery(raws[0]);
      var rest :- ValidateResult(raws[1..]);
      Ok(MemoryAccessQueriesResult([first] + rest.memoryAccessQueries))
  }
}
