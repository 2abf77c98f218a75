/** The channels of the main agent graph. The three state classes extend one another, so each
    record here holds the narrower one and adds its own channels. Last-value channels hold an
    `Option` (`None`: never written; an explicit `None` value reads the same). */
module AgentState {
  import opened Wrappers
  import opened Messages
  import opened Reducers

  datatype AgentState = AgentState(
    userQuery: Option<string>,
    user: Option<string>,
    messages: seq<Message>)                 // add_messages

  datatype CollectedKnowledgeState = CollectedKnowledgeState(
    agent: AgentState,
    knowledgeSearchResults: seq<string>,    // operator.add
    memoryAccessRegistry: seq<string>)      // operator.add

  datatype ProcessQueryState = ProcessQueryState(
    collected: CollectedKnowledgeState,
    processingIteration: Option<int>,
    userPreferences: Option<map<string, string>>,
    processingSummary: Option<string>,
    processingAnswer: Option<string>,
    requiresWebSearch: Option<bool>,
    requiresLongTermMemoryAccess: Option<bool>,
    instructionsForWebSearch: Option<string>,
    instructionsForLongTermMemoryAccess: Option<string>)

  datatype AgentUpdate = AgentUpdate(
    userQuery: Option<Option<string>>,
    user: Option<Option<string>>,
    messages: Option<seq<Message>>)

  datatype CollectedKnowledgeUpdate = CollectedKnowledgeUpdate(
    agent: AgentUpdate,
    knowledgeSearchResults: Option<seq<string>>,
    memoryAccessRegistry: Option<seq<string>>)

  datatype ProcessQueryUpdate = ProcessQueryUpdate(
    collected: CollectedKnowledgeUpdate,
    processingIteration: Option<Option<int>>,
    userPreferences: Option<Option<map<string, string>>>,
    processingSummary: Option<Option<string>>,
    processingAnswer: Option<Option<string>>,
    requiresWebSearch: Option<Option<bool>>,
    requiresLongTermMemoryAccess: Option<Option<bool>>,
    instructionsForWebSearch: Option<Option<string>>,
    instructionsForLongTermMemoryAccess: Option<Option<string>>)

  const NoAgentWrites := AgentUpdate(None, None, None)
  const NoCollectedWrites := CollectedKnowledgeUpdate(NoAgentWrites, None, None)
  const NoProcessWrites := ProcessQueryUpdate(NoCollectedWrites, None, None, None, None, None, None, None, None)

  function MergeAgent(s: AgentState, u: AgentUpdate): (r: AgentState)
    ensures Overwritten(s.userQuery, u.userQuery, r.userQuery)
    ensures Overwritten(s.user, u.user, r.user)
    ensures Appended(s.messages, u.messages, r.messages)
  {
    AgentState(
      OverwriteWrite(s.userQuery, u.userQuery),
      OverwriteWrite(s.user, u.user),
      AppendWrite(s.messages, u.messages))
  }

  function MergeCollected(s: CollectedKnowledgeState, u: CollectedKnowledgeUpdate): (r: CollectedKnowledgeState)
    ensures Overwritten(s.agent.userQuery, u.agent.userQuery, r.agent.userQuery)
    ensures Overwritten(s.agent.user, u.agent.user, r.agent.user)
    ensures Appended(s.agent.messages, u.agent.messages, r.agent.messages)
    ensures Appended(s.knowledgeSearchResults, u.knowledgeSearchResults, r.knowledgeSearchResults)
    ensures Appended(s.memoryAccessRegistry, u.memoryAccessRegistry, r.memoryAccessRegistry)
  {
    CollectedKnowledgeState(
      MergeAgent(s.agent, u.agent),
      AppendWrite(s.knowledgeSearchResults, u.knowledgeSearchResults),
      AppendWrite(s.memoryAccessRegistry, u.memoryAccessRegistry))
  }

  /** Folding one node's update into the full state, channel by channel. */
  function Merge(s: ProcessQueryState, u: ProcessQueryUpdate): (r: ProcessQueryState)
    ensures Overwritten(s.collected.agent.userQuery, u.collected.agent.userQuery, r.collected.agent.userQuery)
    ensures Overwritten(s.collected.agent.user, u.collected.agent.user, r.collected.agent.user)
    ensures Appended(s.collected.agent.messages, u.collected.agent.messages, r.collected.agent.messages)
    ensures Appended(s.collected.knowledgeSearchResults, u.collected.knowledgeSearchResults, r.collected.knowledgeSearchResults)
    ensures Appended(s.collected.memoryAccessRegistry, u.collected.memoryAccessRegistry, r.collected.memoryAccessRegistry)
    ensures Overwritten(s.processingIteration, u.processingIteration, r.processingIteration)
    ensures Overwritten(s.userPreferences, u.userPreferences, r.userPreferences)
    ensures Overwritten(s.processingSummary, u.processingSummary, r.processingSummary)
    ensures Overwritten(s.processingAnswer, u.processingAnswer, r.processingAnswer)
    ensures Overwritten(s.requiresWebSearch, u.requiresWebSearch, r.requiresWebSearch)
    ensures Overwritten(s.requiresLongTermMemoryAccess, u.requiresLongTermMemoryAccess, r.requiresLongTermMemoryAccess)
    ensures Overwritten(s.instructionsForWebSearch, u.instructionsForWebSearch, r.instructionsForWebSearch)
    ensures Overwritten(s.instructionsForLongTermMemoryAccess, u.instructionsForLongTermMemoryAccess,
                        r.instructionsForLongTermMemoryAccess)
  {
    ProcessQueryState(
      MergeCollected(s.collected, u.collected),
      OverwriteWrite(s.processingIteration, u.processingIteration),
      OverwriteWrite(s.userPreferences, u.userPreferences),
      OverwriteWrite(s.processingSummary, u.processingSummary),
      OverwriteWrite(s.processingAnswer, u.processingAnswer),
      OverwriteWrite(s.requiresWebSearch, u.requiresWebSearch),
      OverwriteWrite(s.requiresLongTermMemoryAccess, u.requiresLongTermMemoryAccess),
      OverwriteWrite(s.instructionsForWebSearch, u.instructionsForWebSearch),
      OverwriteWrite(s.instructionsForLongTermMemoryAccess, u.instructionsForLongTermMemoryAccess))
  }

  /** The update of a node typed on `AgentState`, as a write to the full state. */
  function FromAgentUpdate(u: AgentUpdate): ProcessQueryUpdate {
    NoProcessWrites.(collected := NoCollectedWrites.(agent := u))
  }

  /** The update of a node typed on `CollectedKnowledgeState`, as a write to the full state. */
  function FromCollectedUpdate(u: CollectedKnowledgeUpdate): ProcessQueryUpdate {
    NoProcessWrites.(collected := u)
  }

  /** A node typed on a narrower state changes the narrower part exactly as that state's own
      merge would, and leaves every channel outside it as it was. */
  lemma NarrowUpdatesStayNarrow(s: ProcessQueryState, a: AgentUpdate, c: CollectedKnowledgeUpdate)
    ensures Merge(s, FromAgentUpdate(a)) == s.(collected := s.collected.(agent := MergeAgent(s.collected.agent, a)))
    ensures Merge(s, FromCollectedUpdate(c)) == s.(collected := MergeCollected(s.collected, c))
  {
  }

  /** The updates of a fan-out's branches merged in dispatch order. */
  function MergeAll(s: ProcessQueryState, us: seq<ProcessQueryUpdate>): ProcessQueryState
    decreases |us|
  {
    if |us| == 0 then s else MergeAll(Merge(s, us[0]), us[1..])
  }

  function MessageWrites(us: seq<ProcessQueryUpdate>): seq<Option<seq<Message>>> {
    seq(|us|, i requires 0 <= i < |us| => us[i].collected.agent.messages)
  }

  function KnowledgeWrites(us: seq<ProcessQueryUpdate>): seq<Option<seq<string>>> {
    seq(|us|, i requires 0 <= i < |us| => us[i].collected.knowledgeSearchResults)
  }

  function RegistryWrites(us: seq<ProcessQueryUpdate>): seq<Option<seq<string>>> {
    seq(|us|, i requires 0 <= i < |us| => us[i].collected.memoryAccessRegistry)
  }

  function UserQueryWrites(us: seq<ProcessQueryUpdate>): seq<Option<Option<string>>> {
    seq(|us|, i requires 0 <= i < |us| => us[i].collected.agent.userQuery)
  }

  /** At the join, the message channel holds the old messages followed by every branch's
      messages in dispatch order, and the user query holds the last value written. */
  lemma {:induction false} MergeAllMessages(s: ProcessQueryState, us: seq<ProcessQueryUpdate>)
    ensures MergeAll(s, us).collected.agent.messages == s.collected.agent.messages + Written(MessageWrites(us))
    ensures MergeAll(s, us).collected.agent.userQuery == OverwriteAll(s.collected.agent.userQuery, UserQueryWrites(us))
    decreases |us|
  {
    if |us| > 0 {
      MergeAllMessages(Merge(s, us[0]), us[1..]);
      assert MessageWrites(us[1..]) == MessageWrites(us)[1..];
      assert UserQueryWrites(us[1..]) == UserQueryWrites(us)[1..];
    }
  }

  /** At the join, the knowledge and registry channels hold the old items followed by every
      branch's items in dispatch order. */
  lemma {:induction false} MergeAllKnowledge(s: ProcessQueryState, us: seq<ProcessQueryUpdate>)
    ensures MergeAll(s, us).collected.knowledgeSearchResults
            == s.collected.knowledgeSearchResults + Written(KnowledgeWrites(us))
    ensures MergeAll(s, us).collected.memoryAccessRegistry
            == s.collected.memoryAccessRegistry + Written(RegistryWrites(us))
    decreases |us|
  {
    if |us| > 0 {
      MergeAllKnowledge(Merge(s, us[0]), us[1..]);
      assert KnowledgeWrites(us[1..]) == KnowledgeWrites(us)[1..];
      assert RegistryWrites(us[1..]) == RegistryWrites(us)[1..];
    }
  }

  /** When the web-search and memory-search branches join, the message, knowledge and registry
      channels hold the old items followed by every branch's items in dispatch order, and the
      user query holds the last value written. */
  lemma MergeAllAccumulates(s: ProcessQueryState, us: seq<ProcessQueryUpdate>)
    ensures MergeAll(s, us).collected.agent.messages == s.collected.agent.messages + Written(MessageWrites(us))
    ensures MergeAll(s, us).collected.knowledgeSearchResults
            == s.collected.knowledgeSearchResults + Written(KnowledgeWrites(us))
    ensures MergeAll(s, us).collected.memoryAccessRegistry
            == s.collected.memoryAccessRegistry + Written(RegistryWrites(us))
    ensures MergeAll(s, us).collected.agent.userQuery == OverwriteAll(s.collected.agent.userQuery, UserQueryWrites(us))
  {
    MergeAllMessages(s, us);
    MergeAllKnowledge(s, us);
  }
}
