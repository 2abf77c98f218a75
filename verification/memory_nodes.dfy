/** The memory graph's nodes: query generation, and reading and writing the long-term store.
    The store is a map from namespace to entries; its similarity search is an opaque function
    of the store's contents, and the fresh ids `uuid4` would draw are an input sequence. */
module MemoryNodes {
  import opened Wrappers
  import opened Messages
  import opened RunConfig
  import opened ChatModels
  import opened MemorySchema
  import opened MemoryState
  import AgentNodes

  /** The memory `_get_model`: the shared provider check, no tools bound. */
  function GetModel(name: Raw, temperature: real): (r: Result<ChatModel>)
    ensures r.Ok? <==> name == Text("openai")
    ensures r.Ok? ==> r.value == ChatModel("gpt-4o", temperature, [])
    ensures name == Text("anthropic") ==> r.Err? && r.error.NotImplementedError?
    ensures r.Err? && name != Text("anthropic") ==> r.error.ValueError?
  {
    SelectModel(name, temperature)
  }

  /** The memory agent and the main agent accept the same provider names and refuse the
      others with the same exception; they differ only in temperature and bound tools. */
  lemma ProvidersAgree(name: Raw, temperature: real, tools: seq<Tool>)
    ensures GetModel(name, temperature).Ok? <==> AgentNodes.GetModel(name, tools).Ok?
    ensures GetModel(name, temperature).Err? ==> GetModel(name, temperature).error == AgentNodes.GetModel(name, tools).error
    ensures GetModel(name, temperature).Ok? ==>
              AgentNodes.GetModel(name, tools).value == GetModel(name, temperature).value.(temperature := 0.0, boundTools := tools)
  {
  }

  datatype GenerateOutput = GenerateOutput(model: ChatModel, request: seq<Message>, update: MemoryUpdate)

  /** `node_generate_memory_access_queries`: the formatted prompt (a bare string, which the
      chat model reads as a human message) goes first, then the conversation, to the
      configured model at temperature 0.5; the validated queries it answers are appended. */
  function GenerateMemoryAccessQueries(s: MemoryState, config: Option<RunnableConfig>, prompt: string,
                                       result: MemoryAccessQueriesResult): (r: Result<GenerateOutput>)
    ensures r.Ok? <==> ModelName(config) == Text("openai")
    ensures "model_name" !in Configurable(config) ==> r.Ok?
    ensures r.Ok? ==> r.value.model.temperature == 0.5
    ensures r.Ok? ==> |r.value.request| == |s.messages| + 1
                      && r.value.request[0] == HumanMessage(prompt, NoKwargs)
                      && r.value.request[1..] == s.messages
    ensures r.Ok? ==> r.value.update == NoWrites.(memoryAccessQueries := Some(result.memoryAccessQueries))
  {
    var model :- GetModel(ModelName(config), 0.5);
    Ok(GenerateOutput(model, [HumanMessage(prompt, NoKwargs)] + s.messages,
                      NoWrites.(memoryAccessQueries := Some(result.memoryAccessQueries))))
  }

  /** A store namespace: `(user, memory_type)`. */
  datatype Namespace = Namespace(user: string, memoryType: string)

  /** `determine_namespace`: the query's user and memory type, exactly as given. */
  function DetermineNamespace(q: MemoryAccessQuery): (r: Namespace)
    ensures r.user == q.user && r.memoryType == q.memoryType.Name()
  {
    Namespace(q.user, q.memoryType.Name())
  }

  /** Different users or different memory types never share a namespace. */
  lemma NamespacesSeparate(a: MemoryAccessQuery, b: MemoryAccessQuery)
    ensures DetermineNamespace(a) == DetermineNamespace(b) <==> a.user == b.user && a.memoryType == b.memoryType
  {
  }

  /** Names are not case-folded: "Carol" and "carol" are different users to the store. */
  lemma NamespaceKeepsCase(q: MemoryAccessQuery)
    requires q.user == "Carol"
    ensures DetermineNamespace(q).user == "Carol"
    ensures DetermineNamespace(q) != DetermineNamespace(q.(user := "carol"))
  {
  }

  datatype Item = Item(key: string, value: string)

  type Store = map<Namespace, seq<Item>>

  /** The entries of a namespace; an unknown namespace has none. */
  function Entries(store: Store, ns: Namespace): seq<Item> {
    if ns in store then store[ns] else []
  }

  function WithoutKey(items: seq<Item>, key: string): (r: seq<Item>)
    ensures forall it :: it in r <==> it in items && it.key != key
  {
    if |items| == 0 then []
    else (if items[0].key == key then [] else [items[0]]) + WithoutKey(items[1..], key)
  }

  /** `store.put(namespace, key, value)`: the key now holds the value; other keys and other
      namespaces are unchanged. */
  function Put(store: Store, ns: Namespace, key: string, value: string): (r: Store)
    ensures Item(key, value) in Entries(r, ns)
    ensures forall it :: it in Entries(r, ns) && it.key == key ==> it.value == value
    ensures forall it: Item :: it.key != key ==> (it in Entries(r, ns) <==> it in Entries(store, ns))
    ensures forall other :: other != ns ==> Entries(r, other) == Entries(store, other)
  {
    store[ns := WithoutKey(Entries(store, ns), key) + [Item(key, value)]]
  }

  /** The store's search: namespace, query text and limit, answered from the store's contents. */
  type Search = (Store, Namespace, string, int) -> seq<Item>

  const SearchLimit := 10

  /** `read_memory`: a read query searches its own namespace with its text, at most ten hits;
      any other query fails the assertion. */
  function ReadMemory(q: MemoryAccessQuery, store: Store, search: Search): (r: Result<seq<Item>>)
    ensures r.Ok? <==> q.accessType == Read
    ensures r.Err? ==> r.error.AssertionError?
    ensures r.Ok? ==> r.value == search(store, Namespace(q.user, q.memoryType.Name()), q.query, SearchLimit)
  {
    if q.accessType != Read then Err(AssertionError("Query type must be 'read' for reading memory."))
    else Ok(search(store, DetermineNamespace(q), q.query, SearchLimit))
  }

  /** `write_memory`: a write query stores its text under the fresh id in its own namespace;
      any other query fails the assertion. */
  function WriteMemory(q: MemoryAccessQuery, store: Store, id: string): (r: Result<Store>)
    ensures r.Ok? <==> q.accessType == Write
    ensures r.Err? ==> r.error.AssertionError?
    ensures r.Ok? ==> Item(id, q.query) in Entries(r.value, Namespace(q.user, q.memoryType.Name()))
    ensures r.Ok? ==> forall other :: other != Namespace(q.user, q.memoryType.Name()) ==>
              Entries(r.value, other) == Entries(store, other)
  {
    if q.accessType != Write then Err(AssertionError("Query type must be 'write' for writing memory."))
    else Ok(Put(store, DetermineNamespace(q), id, q.query))
  }

  /** What a run over the queries yields: the read results in order, and the final store. */
  datatype Access = Access(results: seq<seq<Item>>, store: Store)

  /** The queries processed front to back: a read contributes its hits (searched in the store
      as it is at that point), a write changes the store under the next fresh id. */
  function AccessAll(qs: seq<MemoryAccessQuery>, store: Store, search: Search, ids: nat -> string, writes: nat): Access
    decreases |qs|
  {
    if |qs| == 0 then Access([], store)
    else
      var q := qs[0];
      var ns := DetermineNamespace(q);
      if q.accessType == Read then
        var rest := AccessAll(qs[1..], store, search, ids, writes);
        Access([search(store, ns, q.query, SearchLimit)] + rest.results, rest.store)
      else
        AccessAll(qs[1..], Put(store, ns, ids(writes), q.query), search, ids, writes + 1)
  }

  function ReadCount(qs: seq<MemoryAccessQuery>): nat {
    if |qs| == 0 then 0 else (if qs[0].accessType == Read then 1 else 0) + ReadCount(qs[1..])
  }

  /** One result per read query. */
  lemma {:induction false} OneResultPerRead(qs: seq<MemoryAccessQuery>, store: Store, search: Search,
                                            ids: nat -> string, writes: nat)
    ensures |AccessAll(qs, store, search, ids, writes).results| == ReadCount(qs)
    decreases |qs|
  {
    if |qs| > 0 {
      var q := qs[0];
      if q.accessType == Read {
        OneResultPerRead(qs[1..], store, search, ids, writes);
      } else {
        OneResultPerRead(qs[1..], Put(store, DetermineNamespace(q), ids(writes), q.query), search, ids, writes + 1);
      }
    }
  }

  /** Read-only queries leave the store alone, and the i-th result is the search for the i-th
      query. */
  lemma {:induction false} ReadsOnly(qs: seq<MemoryAccessQuery>, store: Store, search: Search,
                                     ids: nat -> string, writes: nat)
    requires forall i :: 0 <= i < |qs| ==> qs[i].accessType == Read
    ensures AccessAll(qs, store, search, ids, writes).store == store
    ensures |AccessAll(qs, store, search, ids, writes).results| == |qs|
    ensures forall i :: 0 <= i < |qs| ==>
              AccessAll(qs, store, search, ids, writes).results[i]
              == search(store, DetermineNamespace(qs[i]), qs[i].query, SearchLimit)
    decreases |qs|
  {
    if |qs| > 0 {
      ReadsOnly(qs[1..], store, search, ids, writes);
      var rest := AccessAll(qs[1..], store, search, ids, writes);
      var all := AccessAll(qs, store, search, ids, writes);
      forall i | 1 <= i < |qs|
        ensures all.results[i] == search(store, DetermineNamespace(qs[i]), qs[i].query, SearchLimit)
      {
        assert all.results[i] == rest.results[i - 1];
        assert qs[1..][i - 1] == qs[i];
      }
    }
  }

  /** The namespace of some write query among `qs`. */
  predicate WrittenTo(qs: seq<MemoryAccessQuery>, ns: Namespace) {
    exists i :: 0 <= i < |qs| && qs[i].accessType == Write && DetermineNamespace(qs[i]) == ns
  }

  /** Only the namespaces of write queries change. */
  lemma {:induction false} WritesStayInTheirNamespaces(qs: seq<MemoryAccessQuery>, store: Store, search: Search,
                                                       ids: nat -> string, writes: nat, ns: Namespace)
    requires !WrittenTo(qs, ns)
    ensures Entries(AccessAll(qs, store, search, ids, writes).store, ns) == Entries(store, ns)
    decreases |qs|
  {
    if |qs| > 0 {
      var q := qs[0];
      assert forall i :: 0 <= i < |qs[1..]| ==> qs[1..][i] == qs[i + 1];
      if q.accessType == Read {
        WritesStayInTheirNamespaces(qs[1..], store, search, ids, writes, ns);
      } else {
        var store1 := Put(store, DetermineNamespace(q), ids(writes), q.query);
        assert DetermineNamespace(qs[0]) != ns;
        assert Entries(store1, ns) == Entries(store, ns);
        assert AccessAll(qs, store, search, ids, writes) == AccessAll(qs[1..], store1, search, ids, writes + 1);
        WritesStayInTheirNamespaces(qs[1..], store1, search, ids, writes + 1, ns);
      }
    }
  }

  /** The results read so far, followed by what the remaining queries yield. */
  function After(done: seq<seq<Item>>, a: Access): Access {
    Access(done + a.results, a.store)
  }

  /** One query of the loop: a read adds its hits to the results read so far, a write moves on
      with the updated store and the next fresh id. */
  lemma AccessStep(qs: seq<MemoryAccessQuery>, i: nat, done: seq<seq<Item>>, store: Store, search: Search,
                   ids: nat -> string, writes: nat)
    requires i < |qs|
    ensures qs[i].accessType == Read ==>
              After(done, AccessAll(qs[i..], store, search, ids, writes))
              == After(done + [search(store, DetermineNamespace(qs[i]), qs[i].query, SearchLimit)],
                       AccessAll(qs[i + 1..], store, search, ids, writes))
    ensures qs[i].accessType == Write ==>
              After(done, AccessAll(qs[i..], store, search, ids, writes))
              == After(done, AccessAll(qs[i + 1..], Put(store, DetermineNamespace(qs[i]), ids(writes), qs[i].query),
                                       search, ids, writes + 1))
  {
    assert qs[i..][0] == qs[i];
    assert qs[i..][1..] == qs[i + 1..];
  }

  /** `node_access_memory`: the generated queries (none when the key is missing) are processed
      in order; reads collect their hits, writes go to the store. The read and write
      assertions never fire, since each query goes only to the function for its own kind. */
  method NodeAccessMemory(queries: Option<seq<MemoryAccessQuery>>, store: Store, search: Search, ids: nat -> string)
    returns (readResults: seq<seq<Item>>, finalStore: Store)
    ensures Access(readResults, finalStore) == AccessAll(queries.GetOr([]), store, search, ids, 0)
    ensures |readResults| == ReadCount(queries.GetOr([]))
    ensures queries.None? ==> readResults == [] && finalStore == store
  {
    var qs := queries.GetOr([]);
    readResults := [];
    finalStore := store;
    var writes: nat := 0;
    var i := 0;
    assert qs[0..] == qs;
    while i < |qs|
      invariant 0 <= i <= |qs|
      invariant AccessAll(qs, store, search, ids, 0) == After(readResults, AccessAll(qs[i..], finalStore, search, ids, writes))
    {
      var q := qs[i];
      AccessStep(qs, i, readResults, finalStore, search, ids, writes);
      if q.accessType == Read {
        var hits := ReadMemory(q, finalStore, search);
        assert hits.Ok?;
        readResults := readResults + [hits.value];
      }
      if q.accessType == Write {
        var written := WriteMemory(q, finalStore, ids(writes));
        assert written.Ok?;
        finalStore := written.value;
        writes := writes + 1;
      }
      i := i + 1;
    }
    assert qs[i..] == [];
    OneResultPerRead(qs, store, search, ids, 0);
  }
}
