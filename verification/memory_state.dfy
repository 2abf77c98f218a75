/** The channels of the memory graph: `MemoryState`, and `MemoryAccessQueriesState`, which adds
    the generated queries. All three channels append. */
module MemoryState {
  import opened Wrappers
  import opened Messages
  import opened Reducers
  import opened MemorySchema

  datatype MemoryState = MemoryState(
    messages: seq<Message>,                 // add_messages
    memoryAccessRegistry: seq<string>)      // operator.add

  datatype MemoryAccessQueriesState = MemoryAccessQueriesState(
    memory: MemoryState,
    memoryAccessQueries: seq<MemoryAccessQuery>)  // operator.add

  datatype MemoryUpdate = MemoryUpdate(
    messages: Option<seq<Message>>,
    memoryAccessRegistry: Option<seq<string>>,
    memoryAccessQueries: Option<seq<MemoryAccessQuery>>)

  const NoWrites := MemoryUpdate(None, None, None)

  function Merge(s: MemoryAccessQueriesState, u: MemoryUpdate): (r: MemoryAccessQueriesState)
    ensures Appended(s.memory.messages, u.messages, r.memory.messages)
    ensures Appended(s.memory.memoryAccessRegistry, u.memoryAccessRegistry, r.memory.memoryAccessRegistry)
    ensures Appended(s.memoryAccessQueries, u.memoryAccessQueries, r.memoryAccessQueries)
  {
    MemoryAccessQueriesState(
      MemoryState(AppendWrite(s.memory.messages, u.messages),
                  AppendWrite(s.memory.memoryAccessRegistry, u.memoryAccessRegistry)),
      AppendWrite(s.memoryAccessQueries, u.memoryAccessQueries))
  }

  function MergeAll(s: MemoryAccessQueriesState, us: seq<MemoryUpdate>): MemoryAccessQueriesState
    decreases |us|
  {
    if |us| == 0 then s else MergeAll(Merge(s, us[0]), us[1..])
  }

  function RegistryWrites(us: seq<MemoryUpdate>): seq<Option<seq<string>>> {
    seq(|us|, i requires 0 <= i < |us| => us[i].memoryAccessRegistry)
  }

  function QueryWrites(us: seq<MemoryUpdate>): seq<Option<seq<MemoryAccessQuery>>> {
    seq(|us|, i requires 0 <= i < |us| => us[i].memoryAccessQueries)
  }

  /** Successive updates only ever add: the registry and the query list hold the old items
      followed by every update's items in order. */
  lemma {:induction false} MergeAllAccumulates(s: MemoryAccessQueriesState, us: seq<MemoryUpdate>)
    ensures MergeAll(s, us).memory.memoryAccessRegistry == s.memory.memoryAccessRegistry + Written(RegistryWrites(us))
    ensures MergeAll(s, us).memoryAccessQueries == s.memoryAccessQueries + Written(QueryWrites(us))
    decreases |us|
  {
    if |us| > 0 {
      MergeAllAccumulates(Merge(s, us[0]), us[1..]);
      assert RegistryWrites(us[1..]) == RegistryWrites(us)[1..];
      assert QueryWrites(us[1..]) == QueryWrites(us)[1..];
    }
  }
}
