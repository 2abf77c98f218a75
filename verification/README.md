# ai-chatbot, modelled in Dafny

ai-chatbot is a personal assistant built on LangGraph. A user's message goes into a state
graph, and the graph's nodes call a chat model, tools, a web search engine and a long-term
memory store. This project models the deterministic core of that assistant. The modelled
parts are:

- **Channels and reducers.** Every graph's state is a typed record. A node returns a partial
  update; `operator.add` and `add_messages` channels append what it writes, and every other
  channel keeps the last value written. A fan-out's branch updates are merged in dispatch
  order (`Reducers`, `ResearchState`, `AgentState`, `MemoryState`).
- **The deep-research agent.** Its configuration is read from the environment, then from the
  run config, then from defaults (`ResearchConfig`). The model covers query generation, the
  `web_research` and `web_scraping` fan-outs, reflection and the router that decides between
  another loop and the final answer (`ResearchNodes`). It also covers the graph's wiring and
  the whole research loop, with its bound on the number of reflections (`ResearchGraph`).
- **The main agent.** This covers the tool list, the model-provider choice, the model call,
  the tool-call test, and the graph's wiring with its three routers (`AgentTools`,
  `ChatModels`, `AgentNodes`, `AgentGraph`). It also covers the two ways a transcript is
  flattened to text (`AgentUtils`, `ResearchUtils`).
- **The simple chatbot graph.** A model node and a tool executor run in a loop
  (`ModelGraph`).
- **The memory agent.** Its structured query schema is modelled (`MemorySchema`). Each query
  goes to a `(user, memory_type)` namespace, and reads and writes against the store are
  modelled (`MemoryNodes`).
- **Chat histories.** The get-or-create instance cache is modelled (`HistoryCache`). So are
  the application's history object (`AppHistory`) and the older history module with its
  callbacks and archive (`LegacyHistory`). The checkpoint-based archive, its session list and
  the vector-store refresh are modelled too (`ChatArchive`).
- **The front ends.** The `Chatbot` object covers sessions, the run config and trailing
  replies (`Chatbot`). The console runner covers input, quitting, the error texts and the
  chat loop (`CliRunner`).

Everything the system gets from outside is a parameter of the model. That covers the language
model's replies, search hits, fetched pages, fresh UUIDs, the clock, the tools' outputs (or
what a tool raises), the store's search and the MongoDB contents. The Python exceptions a call raises become
`Err(...)` values of a `Result`. The class hierarchy is kept where the code relies on it:
NotImplementedError is a RuntimeError, and pydantic's ValidationError is a ValueError.

Behaviours of the code worth knowing:

- Memory namespaces are `(user, memory_type)` exactly as given, with no case folding
  (`MemoryNodes.NamespaceKeepsCase`).
- The research loop makes at most `max_research_loops` reflections, and at least one
  (`ResearchGraph.Cap`).
- When reflection finds the research insufficient but proposes no follow-up query, the router
  dispatches nothing. The run then stops without a final answer
  (`ResearchGraph.EmptyFollowUpsStall`).
- `web_research` appends its own query to `search_query`, which already holds the list
  `generate_query` wrote. After the first round every query is therefore listed twice
  (`ResearchGraph.FirstRoundCountsTwice`). The reflection's `number_of_ran_queries` is twice the
  number of first-round searches, and follow-up ids start there.
- `follow_up_queries` is an append channel. Every later loop therefore re-dispatches all the
  follow-up queries collected so far (`ResearchGraph.FollowUpsAccumulate`).
- The research graph builder names `web_content_analysis`, `continue_to_web_content_analysis`
  and `node_finalize_answer`. The nodes module does not define these three. The wiring is
  modelled as declared. In the loop, the defined `continue_to_web_scraping`/`web_scraping`
  pair stands in for content analysis, and `finalize_answer` stands in for
  `node_finalize_answer`.

## Model

| member | source | states |
|---|---|---|
| Reducers.AppendWrite | app/src/deep_research/state.py:15-22 | A write to an append channel keeps the old items as a prefix and adds exactly the written items after them. |
| Reducers.OverwriteWrite | app/src/deep_research/state.py:29-32 | A write to a plain channel replaces the value; no write keeps it. |
| Reducers.AppendAllConcatenates | app/src/deep_research/state.py:15-22 | Merging a fan-out's branch writes in order gives the old items followed by every branch's items in dispatch order. |
| Reducers.OverwriteAllLastWriterWins | app/src/deep_research/state.py:29-32 | After merging, a last-value channel holds the value of the last branch that wrote it, read from the end. |
| Reducers.OverwriteAllUnwritten | app/src/deep_research/state.py:29-32 | A last-value channel no branch writes keeps its value. |
| ResearchState.Merge | app/src/deep_research/state.py:11-43 | Each of the research graph's twelve channels is folded by its declared policy: five append, seven overwrite. |
| ResearchState.MergeAllAppends | app/src/deep_research/state.py:15-41 | After a join, the query, URL, page and follow-up lists hold the old items followed by the branches' items in dispatch order. |
| ResearchState.MergeAllQueries | app/src/deep_research/state.py:15-41 | After a join, the query and follow-up lists hold the old items followed by the branches' items in dispatch order. |
| ResearchState.MergeAllResults | app/src/deep_research/state.py:21-22 | After a join, the URL and page lists hold the old items followed by the branches' items in dispatch order. |
| ResearchState.MergeAllKeepsLoopControl | app/src/deep_research/state.py:30-42 | Branches that do not write the loop counters leave them unchanged after the join. |
| ResearchConfig.Coerce | app/src/deep_research/configuration.py:8-39 | A `str` field accepts text only, and an integer given to it fails. An `int` field accepts an integer, or text exactly when the text spells an integer, and then takes that integer's value. Every failure is a ValidationError naming the field. |
| ResearchConfig.FromRunnableConfig | app/src/deep_research/configuration.py:41-59 | Succeeds iff every field validates. A field takes the value of its upper-cased environment variable when that is set, else a non-None "configurable" value, else its declared default. |
| ResearchConfig.FieldSources | app/src/deep_research/configuration.py:50-59 | Each field of the built configuration came from its environment variable when set, else from a non-None "configurable" value, else from its default. |
| ResearchConfig.DefaultsWithoutOverrides | app/src/deep_research/configuration.py:11-39 | With no environment variable and no "configurable" section, the result is the declared defaults gpt-4o-mini, gpt-4o-mini, gpt-4o, 1, 1, 2. |
| ResearchConfig.MissingSectionIsEmpty | app/src/deep_research/configuration.py:46-48 | No config, a config without "configurable", and an empty section give the same configuration. |
| ResearchConfig.NoneIsDropped | app/src/deep_research/configuration.py:56-57 | A "configurable" entry holding None reads as if the key were absent. |
| ResearchConfig.EnvIntegerRoundTrip | app/src/deep_research/configuration.py:52 | An integer written into the MAX_RESEARCH_LOOPS variable is read back as that integer. |
| Strings.Strip | app/src/cli_runner.py:40 | The result is a slice of the input with only whitespace before and after it, and it neither starts nor ends with whitespace. Whitespace is the set `str.isspace` accepts, including the Unicode space separators and no-break space. |
| Strings.Lower | app/src/cli_runner.py:46 | Same length; each character is lower-cased when it is an ASCII capital and kept otherwise. |
| Strings.Upper | app/src/deep_research/configuration.py:52 | Same length; each character is upper-cased when it is an ASCII small letter and kept otherwise. |
| Strings.ParseShowInt | app/src/deep_research/configuration.py:52 | Parsing the decimal text of any integer gives that integer back. |
| ResearchUtils.GetResearchTopic | app/src/deep_research/utils.py:11-25 | One message gives its content, whatever its type. Any other number of messages gives the "User:"/"Assistant:" transcript of the human and AI messages only, which is empty for no messages. |
| ResearchUtils.TranscriptTextAppend | app/src/deep_research/utils.py:19-24 | The transcript of a concatenation is the concatenation of the transcripts. |
| ResearchUtils.TranscriptSkipsOtherMessages | app/src/deep_research/utils.py:20-24 | Messages that are neither human nor AI add nothing: the transcript equals that of the human and AI messages alone. |
| ResearchUtils.ConversationalKeepsAll | app/src/deep_research/utils.py:20-24 | Filtering a list of human and AI messages down to human and AI messages keeps it whole. |
| ResearchUtils.TranscriptLines | app/src/deep_research/utils.py:20-24 | The i-th message contributes its line between the transcripts of the messages before and after it. |
| AgentUtils.ChatLines | app/src/agent/utils.py:12-19 | The multi-message loop succeeds iff every message is a user or assistant message, and raises ValueError otherwise. On success the text is the messages' lines joined in order. A message that passes the user test is labelled "User", even when it also passes the assistant test. |
| AgentUtils.ChatToStr | app/src/agent/utils.py:4-20 | One message gives its content (or ""). Otherwise it raises ValueError exactly when some message is neither user nor assistant, and returns the joined lines when none is. |
| AgentUtils.ChatLinesAgreeWithTranscript | app/src/agent/utils.py:12-19 | On dictionaries that stand for human and AI messages, whether keyed by `role` or by `type`, `chat_to_str`'s loop produces the same text as `get_research_topic`'s. |
| AgentUtils.DictFormsDescribe | app/src/agent/utils.py:14-17 | Both a `type`-keyed dictionary ("human"/"ai") and a `role`-keyed one ("user"/"assistant") of a human or AI message give its transcript line. |
| AgentUtils.ChatToStrAgreesWithResearchTopic | app/src/agent/utils.py:9-20 | On human and AI messages in either dictionary form, the two flattening functions return the same string. |
| Messages.LastHasToolCalls | app/src/agent/nodes.py:47-48 | An empty list raises IndexError, and a last message that is not an AI message raises AttributeError. Otherwise the result is true iff the last message requests a tool. |
| RunConfig.ModelName | app/src/agent/nodes.py:33 | The model name is "openai" when the "configurable" section lacks the key; a present key wins even when it holds None. |
| ResearchNodes.GenerateQuery | app/src/deep_research/nodes.py:33-76 | With queries in the state it returns them unchanged, without a model call or a configuration read. Otherwise it asks the configured query model for the configured number of queries on the research topic, and returns the generated ones. |
| ResearchNodes.GenerateQueryIntended | app/src/deep_research/nodes.py:46-51 | With queries in the state it writes nothing. Otherwise it behaves like `generate_query`. |
| ResearchNodes.GenerateQuerySkipDuplicates | app/src/deep_research/nodes.py:46-51 | As written, the skip branch doubles the query list after the merge, so the fan-out dispatches twice as many searches. |
| ResearchNodes.GenerateQueryIntendedKeepsQueries | app/src/deep_research/nodes.py:46-51 | The corrected skip leaves the state and the fan-out exactly as they were. |
| ResearchNodes.ContinueToWebResearch | app/src/deep_research/nodes.py:79-87 | One `web_research` dispatch per query, in order, with ids 0, 1, 2, … |
| ResearchNodes.Links | app/src/deep_research/nodes.py:112 | Succeeds iff every hit has a "link", giving the links in hit order; otherwise KeyError("link"). |
| ResearchNodes.WebResearchNode | app/src/deep_research/nodes.py:90-117 | Searches for the query with the configured result count. It writes the query and its links, touches no other channel, and fails only on configuration or a hit without a link. |
| ResearchNodes.ContinueToWebScraping | app/src/deep_research/nodes.py:119-133 | Dispatches exactly the URLs beyond the number already scraped, in order and numbered from 0; nothing when there are no new URLs. |
| ResearchNodes.WebScrapingNode | app/src/deep_research/nodes.py:135-149 | Appends exactly one page text and nothing else. |
| ResearchNodes.ReflectionNode | app/src/deep_research/nodes.py:151-193 | Writes the loop count plus one (from 0 when unset), the number of queries held, and the model's verdict, knowledge gap and follow-ups. It writes no search, scrape or message channel, nor the loop cap, initial count or reasoning model. It uses the state's reasoning model before the configured one. |
| ResearchNodes.EvaluateResearch | app/src/deep_research/nodes.py:196-230 | A configuration error propagates. Finalizes iff the research is sufficient or the loop count has reached the cap (the state's cap before the configured one). Otherwise it dispatches each follow-up query, numbered from `number_of_ran_queries`. An unwritten `is_sufficient`, `research_loop_count` or `number_of_ran_queries` raises KeyError at the point the code reads it. |
| ResearchNodes.FinalizeAnswerNode | app/src/deep_research/nodes.py:233-269 | Uses the reasoning model when it is set and non-empty, the answer model otherwise, and appends the reply as one AI message. |
| ResearchNodes.FinalizeAppendsAnswer | app/src/deep_research/nodes.py:233-269 | Once merged, the final update leaves the answer as the last message and changes no other channel. |
| ResearchNodes.ReflectionRecords | app/src/deep_research/nodes.py:165-193 | Once merged, reflection's update counts one more loop, records the verdict and the gap, adds the follow-ups after the earlier ones, and records the number of queries run. Every other channel is unchanged. |
| ResearchGraph.Wiring | app/src/deep_research/graph.py:29-44 | The declared edges allow exactly the next steps the builder is meant to wire from each node. |
| ResearchGraph.OnlyFinalizeEnds | app/src/deep_research/graph.py:44 | Only `finalize_answer` leads to END. |
| ResearchGraph.RoutersFollowWiring | app/src/deep_research/graph.py:31-42 | Every dispatch the query and reflection routers produce targets a declared successor. The scraping fan-out targets a node the wiring never declares. |
| ResearchGraph.SearchUpdates | app/src/deep_research/nodes.py:90-117 | One `web_research` update per dispatch, in order, each the node's own output. None of them writes the loop counters. The only failure is a hit without a link. |
| ResearchGraph.ScrapeUpdates | app/src/deep_research/nodes.py:135-149 | One `web_scraping` update per dispatched URL, in order, none touching the loop counters. |
| ResearchGraph.ReflectKeepsInvariant | app/src/deep_research/nodes.py:167-193 | After reflection the counter equals the reflections made and the cap is unchanged. Evaluation then finds every key it reads. |
| ResearchGraph.StepKeepsInvariant | app/src/deep_research/graph.py:31-42 | One pass of search, scrape, reflect and evaluate keeps the loop invariant: the counter counts reflections, and the cap is fixed and not yet reached. |
| ResearchGraph.LoopBounded | app/src/deep_research/nodes.py:213-219 | From any reachable point, the loop makes at most the capped number of reflections, and fails only with KeyError("link"). |
| ResearchGraph.ResearchTerminates | app/src/deep_research/graph.py:29-44 | For any model answers, a run makes at most max(1, max_research_loops) reflections. Given that many rounds, it ends by finalizing, by an empty fan-out, or on a hit without a link. |
| ResearchGraph.FirstRoundCountsTwice | app/src/deep_research/nodes.py:113-116 | After the first round's searches are joined, the query list holds every generated query twice, in order. |
| ResearchGraph.FollowUpsAccumulate | app/src/deep_research/nodes.py:187-230 | A further loop dispatches every follow-up query collected so far, the earlier ones first. |
| ResearchGraph.EmptyFollowUpsStall | app/src/deep_research/nodes.py:218-230 | An insufficient verdict with no follow-ups, below the cap, dispatches nothing instead of finalizing. |
| AgentState.MergeAgent | app/src/agent/state.py:10-17 | `user_query` and `user` are overwritten; `messages` is appended to. |
| AgentState.MergeCollected | app/src/agent/state.py:19-24 | Adds the two append channels for knowledge results and the memory registry to the base state's policies. |
| AgentState.Merge | app/src/agent/state.py:26-39 | Each of the full state's thirteen channels is folded by its declared policy. |
| AgentState.NarrowUpdatesStayNarrow | app/src/agent/state.py:10-39 | A node typed on a narrower state changes that part as the narrower merge would, and leaves every other channel alone. |
| AgentState.MergeAllAccumulates | app/src/agent/state.py:15-24 | When the search branches join, messages, knowledge results and the registry accumulate in dispatch order, and the user query holds the last value written. |
| AgentState.MergeAllMessages | app/src/agent/state.py:15-17 | At the join, messages accumulate in dispatch order, and the user query holds the last value written. |
| AgentState.MergeAllKnowledge | app/src/agent/state.py:23-24 | At the join, knowledge results and registry entries accumulate in dispatch order. |
| ChatModels.SelectModel | app/src/agent/nodes.py:14-20 | Succeeds iff the name is "openai", giving gpt-4o at the requested temperature. "anthropic" raises NotImplementedError, and any other name raises ValueError. |
| ChatModels.ConfiguredNameDecides | app/src/agent/nodes.py:14-20 | For any run config, the model is served iff "model_name" is absent or is "openai". |
| AgentTools.InitTools | app/src/agent/tools.py:75-94 | The five base tools come first, in order. Google search is added, last, iff both of its environment keys are non-empty. No tool appears twice. |
| AgentTools.ToolNamesDistinct | app/src/agent/tools.py:80-89 | The registered tool names are pairwise distinct. |
| AgentNodes.GetModel | app/src/agent/nodes.py:8-23 | The agent's model is gpt-4o at temperature 0 with the agent's tools bound; other provider names raise as `SelectModel` says. |
| AgentNodes.CallModel | app/src/agent/nodes.py:26-37 | The request is the system prompt followed by the conversation. It succeeds iff the configured name (default "openai") is "openai". The update appends exactly the one reply. |
| AgentNodes.CallModelThenRoute | app/src/agent/nodes.py:26-48 | Once merged, the reply is the last message and nothing else changes. `tool_call_exists` then answers whether the reply requested tools. |
| MemoryNodes.ProvidersAgree | app/src/memory/nodes.py:12-26 | The agent and the memory agent accept the same provider names and raise the same exception for the others. |
| AgentNodes.ToolCallExists | app/src/agent/nodes.py:42-48 | IndexError on no messages and AttributeError on a non-AI last message. Otherwise true iff that message requests a tool. |
| AgentGraph.Wiring | app/src/agent/graph.py:38-64 | The nine declared edges allow exactly the next steps the builder is meant to wire from each node. |
| AgentGraph.OnlyFinalizeEnds | app/src/agent/graph.py:64 | Only `finalize_answer` leads to END. |
| AgentGraph.AnalyzeNext | app/src/agent/graph.py:40-44 | Goes to the tools iff the last message requests one, and to `route_query` iff it does not. It fails exactly when the test raises. |
| AgentGraph.RouteNext | app/src/agent/graph.py:48-55 | Maps the two known labels to their nodes, and raises KeyError for any other label. |
| AgentGraph.CollectNext | app/src/agent/graph.py:58-60 | The fan-out succeeds iff every chosen name is `web_search` or `memory_search`, and keeps the choice's order. |
| AgentGraph.RoutersFollowWiring | app/src/agent/graph.py:40-60 | Every route the three routers produce is a declared successor. |
| AgentGraph.AnalyzeFollowsWiring | app/src/agent/graph.py:40-44 | The router after `analyze_query` only takes declared edges. |
| AgentGraph.RouteFollowsWiring | app/src/agent/graph.py:48-55 | The router after `route_query` only takes declared edges. |
| AgentGraph.CollectFollowsWiring | app/src/agent/graph.py:58-60 | The fan-out after `collect_knowledge` only takes declared edges. |
| ModelGraph.Merge | app/src/model/graph.py:19-24 | The one message channel is appended to. |
| ModelGraph.RunLlm | app/src/model/graph.py:27-30 | The reply is appended after the existing conversation, which is left unchanged. |
| ModelGraph.RepliesAsWritten | app/src/model/graph.py:39-48 | As written, the replies are exactly what the corrected loop gives for the registered calls alone: one per registered call, in order. A call to an unregistered tool gets none. |
| ModelGraph.Answer | app/src/model/graph.py:41-48 | One call's reply carries the call's id and name. Its content is the tool's output for a registered tool and the error text otherwise. It raises exactly when a registered tool raises. |
| ModelGraph.Registered | app/src/model/graph.py:39-41 | The calls kept are exactly those whose tool is registered. |
| ModelGraph.RegisteredAppend | app/src/model/graph.py:39-48 | Filtering distributes over concatenation, so the kept calls stay in call order, each as often as it was made. |
| ModelGraph.RegisteredOne | app/src/model/graph.py:40-48 | A single call is kept exactly when its tool is registered. |
| ModelGraph.Replies | app/src/model/graph.py:39-48 | Corrected: exactly one reply per call, in order, each as `Answer` gives it, unless a registered tool raises. In that case it raises the first such exception. |
| ModelGraph.ExecuteToolsAsWritten | app/src/model/graph.py:33-50 | As written, an empty list raises IndexError, and a last message that is not an AI message raises AttributeError on `tool_calls`. Otherwise its update is the corrected loop's replies to the registered calls, or the first exception a registered tool raised. |
| ModelGraph.ExecuteTools | app/src/model/graph.py:33-50 | Corrected: every call of the last message gets one reply, in call order, carrying the call's id and name and the tool's output or the error text. It fails iff there are no messages, the last is not an AI message, or a registered tool raises. |
| ModelGraph.UnknownToolCallUnanswered | app/src/model/graph.py:41-48 | A call to an unregistered tool gets no reply as written, but gets the error text in the corrected executor. |
| ModelGraph.AgreeWhenAllKnown | app/src/model/graph.py:41-48 | When every requested tool is registered, the written and the corrected loop give the same replies. |
| ModelGraph.RegisteredAll | app/src/model/graph.py:39-41 | When every requested tool is registered, no call is skipped. |
| ModelGraph.ToolExists | app/src/model/graph.py:53-61 | Defined iff the last message is an AI message; true iff it requests a tool. |
| ModelGraph.LlmNext | app/src/model/graph.py:76-80 | Goes to the tools iff the last message requests one, and to END iff it does not. |
| ModelGraph.Wiring | app/src/model/graph.py:73-85 | The run enters at the model, the model goes to the tools or ends, and the tools go back to the model. |
| ModelGraph.ReplyDecides | app/src/model/graph.py:27-84 | After the model replies, the run ends exactly when the reply requests no tool, and the route taken is a declared one. |
| MemorySchema.ParseMemoryType | app/src/memory/schema.py:13-15 | Accepts exactly the three literal names, and each parses to the type with that name. |
| MemorySchema.ParseAccessType | app/src/memory/schema.py:17-19 | Accepts exactly "read" and "write". |
| MemorySchema.ValidateQuery | app/src/memory/schema.py:5-27 | Valid iff the required fields are present and the two kinds are allowed literals. A missing user becomes "default_user". Errors are ValidationErrors, and the named field is one that actually fails: missing, or not an allowed literal. |
| MemorySchema.ValidateDump | app/src/memory/schema.py:5-27 | Validating a query written out field by field gives the query back. |
| MemorySchema.ValidateWithoutUser | app/src/memory/schema.py:20-23 | Leaving out the user gives the same query for "default_user". |
| MemorySchema.ValidateResult | app/src/memory/schema.py:29-35 | The list validates iff every entry does, and it keeps length and order. |
| MemoryState.Merge | app/src/memory/state.py:7-28 | The messages, registry and query channels are each appended to. |
| MemoryState.MergeAllAccumulates | app/src/memory/state.py:22-28 | Successive updates only add: the registry and the query list hold the old items followed by every write in order. |
| MemoryNodes.GetModel | app/src/memory/nodes.py:12-26 | The memory model is gpt-4o at the requested temperature with no tools; other provider names raise. |
| MemoryNodes.GenerateMemoryAccessQueries | app/src/memory/nodes.py:28-47 | The prompt goes first, then the conversation, to the configured model at temperature 0.5. The node writes exactly the generated queries. |
| MemoryNodes.DetermineNamespace | app/src/memory/nodes.py:49-51 | The namespace is the query's user and memory type, unchanged. |
| MemoryNodes.NamespacesSeparate | app/src/memory/nodes.py:49-51 | Two queries share a namespace iff they have the same user and the same memory type. |
| MemoryNodes.NamespaceKeepsCase | app/src/memory/nodes.py:49-51 | "Carol" and "carol" are different namespaces. |
| MemoryNodes.Put | app/src/memory/nodes.py:79 | The key now holds the value in its namespace. Other keys and other namespaces are unchanged. |
| MemoryNodes.ReadMemory | app/src/memory/nodes.py:53-67 | A read query searches its own namespace with its text and a limit of ten. A write query fails the assertion. |
| MemoryNodes.WriteMemory | app/src/memory/nodes.py:69-79 | A write query stores its text under the fresh id in its own namespace, and changes no other namespace. A read query fails the assertion. |
| MemoryNodes.OneResultPerRead | app/src/memory/nodes.py:86-93 | Processing the queries yields exactly one result per read query. |
| MemoryNodes.ReadsOnly | app/src/memory/nodes.py:86-93 | Read-only queries leave the store unchanged, and the i-th result is the search for the i-th query. |
| MemoryNodes.WritesStayInTheirNamespaces | app/src/memory/nodes.py:86-93 | A namespace that no write query targets is unchanged. |
| MemoryNodes.NodeAccessMemory | app/src/memory/nodes.py:82-97 | The loop yields the reads in order and the final store, as the reference fold over the queries does. A missing query list reads nothing and writes nothing. |
| HistoryCache.Provide | app/chat_history.py:58-73 | A hit returns the cached instance and changes nothing. A miss creates one new instance for the session and caches it. Other sessions are untouched. |
| HistoryCache.ProvideKeepsValid | app/model/chat_history.py:56-72 | Providing keeps the cache consistent, and the instance returned serves the requested session. |
| HistoryCache.ProvideTwice | app/chat_history.py:58-73 | A second request for the same session returns the same instance and creates nothing. |
| HistoryCache.DistinctSessionsDistinctInstances | app/model/chat_history.py:56-72 | Two different sessions are never served by the same instance. |
| AppHistory.GetChatHistory | app/chat_history.py:43-54 | An uncached session reads as empty; a cached one reads its stored messages. |
| AppHistory.ProvideThenRead | app/chat_history.py:43-73 | Once provided, a session reads exactly what the database stores for it. |
| AppHistory.UnprovidedReadsEmpty | app/chat_history.py:51-53 | Before it is provided, a session with stored messages still reads as empty. |
| LegacyHistory.AddNewMessageCallback | app/model/chat_history.py:99-105 | Registration appends the callback after the existing ones. |
| LegacyHistory.CallNewMessageCallbacks | app/model/chat_history.py:26-34 | Every registered callback is called once, in registration order, on the same message object. The first is handed the message itself, each later one what its predecessor left, and the result is what the last one left. |
| LegacyHistory.RegistrationOrder | app/model/chat_history.py:26-34 | A newly registered callback is called after all earlier ones, on what they left, and earlier callbacks are handed the same messages as before. |
| LegacyHistory.Stamp | app/model/chat_history.py:49-52 | The metadata is replaced by a millisecond timestamp and a date; content and type are unchanged. |
| LegacyHistory.AddMessage | app/model/chat_history.py:47-54 | The caller's message is stamped and handed to every callback in order; what the callbacks leave is stored at the end of its session and is also what the caller's object holds. |
| LegacyHistory.NotifyBeforeStore | app/model/chat_history.py:47-54 | Storing is the last event. The first callback sees the freshly stamped message, each later one what its predecessor left, and the store what the last one left. |
| LegacyHistory.PassPrefix | app/model/chat_history.py:26-34 | Callbacks registered later do not change what the earlier ones are handed. |
| LegacyHistory.PassKeepsContent | app/model/chat_history.py:26-34 | Callbacks that never change the text leave it as it was. |
| LegacyHistory.PassObservers | app/model/chat_history.py:26-34 | Callbacks that only observe leave the message as it was. |
| LegacyHistory.ObserversSeeStamp | app/model/chat_history.py:47-54 | When every callback only observes, each is handed the stamped message, and that is what is stored and what the caller's object holds. |
| LegacyHistory.GetChatMessages | app/model/chat_history.py:164-175 | An uncached session reads as empty; a cached one reads its stored messages. |
| LegacyHistory.SliceTo | app/model/chat_history.py:159-160 | Python's `xs[:n]`: the result is a prefix. A non-negative bound keeps min(n, len) items; a negative bound drops that many from the end, leaving none when it exceeds the length. |
| LegacyHistory.GetArchivedSessionIds | app/model/chat_history.py:119-162 | Without a limit it returns every session; with one it returns a prefix of the database's list. |
| LegacyHistory.NegativeLimitDropsFromEnd | app/model/chat_history.py:159-160 | A negative limit -k drops the last k sessions instead of returning none. |
| LegacyHistory.VectorAddMessage | app/model/chat_history.py:187-196 | Without embeddings nothing is added; with them, exactly the message text is added. |
| LegacyHistory.VectorStoreMirrors | app/model/chat_history.py:187-196 | With embeddings, announcing messages one by one adds their texts in order. Without embeddings, the store never changes. |
| LegacyHistory.VectorSeesAddedText | app/model/chat_history.py:47-54 | A vector store registered as a callback gains exactly the text the caller passed, provided the callbacks before it leave the text alone; stamping changes only metadata. |
| ChatArchive.GetChatMessages | app/src/model/chat_history.py:123-149 | A missing checkpoint, missing channel values or a missing messages channel reads as empty. Otherwise it reads the saved messages. |
| ChatArchive.SaveThenRead | app/src/model/chat_history.py:123-149 | What a run saves for a session is what the archive reads back, and other sessions are unaffected. |
| ChatArchive.FirstHumanMessage | app/src/model/chat_history.py:91-97 | None iff there is no human message; otherwise a human message of the list (the earliest one). |
| ChatArchive.Metadata | app/src/model/chat_history.py:107-115 | Text, timestamp and time come from the first human message, defaulting to "", 0 and "<Unknown time>". |
| ChatArchive.SortByTimestampDesc | app/src/model/chat_history.py:117 | The result is sorted newest first and is a permutation of the input. |
| ChatArchive.GetSessionList | app/src/model/chat_history.py:74-121 | The entries are sorted newest first and are a permutation of the per-session metadata. |
| ChatArchive.SessionListCoversSessions | app/src/model/chat_history.py:74-121 | Every session has exactly its entry, and only listed sessions appear. |
| ChatArchive.Refresh | app/src/model/chat_history.py:205-233 | The index holds one document per message of every listed session, in list order, and the count equals their number. |
| Chatbot.NewChat | app/src/model/chatbot.py:53-62 | A new chat makes the fresh id the session, as loading that id would. |
| Chatbot.LoadChat | app/src/model/chatbot.py:73-78 | Loading makes the given id the session. |
| Chatbot.CreateConfig | app/src/model/chatbot.py:149-153 | The config carries the session as thread id (None before any session) and the fixed user "test_user". |
| Chatbot.LoadThenConfig | app/src/model/chatbot.py:73-153 | After loading a session, the next run uses it as its thread. |
| Chatbot.TrailingReplies | app/src/model/chatbot.py:101-111 | The result is the longest suffix of the response made only of AI and tool messages. |
| Chatbot.ProcessMessage | app/src/model/chatbot.py:96-111 | Only the new message goes to the graph, under the chatbot's config. It returns the trailing AI and tool messages, or nothing when the run ended on another message. The replies are maximal: the message before them, if any, is neither an AI nor a tool message. |
| CliRunner.GetUserInput | app/src/cli_runner.py:37-42 | A line is returned stripped of Python's whitespace, Unicode spaces included; end of input or an interrupt reads as "quit". |
| CliRunner.QuitWords | app/src/cli_runner.py:44-46 | Quitting ignores case and accepts blank input. Only short words quit, and "quit now" does not. |
| CliRunner.ContinueUnreachable | app/src/cli_runner.py:88-95 | Any input the loop does not quit on is non-empty, so the `continue` on empty input never runs. |
| CliRunner.ProcessUserQuery | app/src/cli_runner.py:48-80 | A non-empty answer comes first, then the last message of a longer conversation, then the apology. ValueError, TypeError and RuntimeError (with subclasses) show their text; other exceptions give the generic text. |
| CliRunner.ModelErrorsAreReported | app/src/cli_runner.py:75-80 | The agent's model-name refusals reach the user with their message; a KeyError or IndexError gives the generic text. |
| CliRunner.RunnerConfig | app/src/cli_runner.py:23 | The runner's config selects "openai" and carries its thread id. |
| CliRunner.InitialState | app/src/cli_runner.py:54-57 | A query starts the graph with just the user's message. |
| CliRunner.LoopLength | app/src/cli_runner.py:86-106 | Counting from any turn, the loop shows one text for each turn up to the first one that ends it. |
| CliRunner.LoopAt | app/src/cli_runner.py:86-106 | A turn the loop reaches without leaving shows its own text, at its own position in the output. |
| CliRunner.LoopShowsUntilStop | app/src/cli_runner.py:86-106 | The loop's output is exactly the texts of the turns before the first leaving turn, in order. |
| CliRunner.ChatLoopAnswersUntilQuit | app/src/cli_runner.py:82-111 | Every turn before the first quit or interrupt shows exactly its response, in order, and nothing is shown after it. |

## Left out

- The language model, Google search, page fetching (`url_to_markdown`), Chroma, MongoDB, the
  LangGraph store's similarity search, UUIDs and the clock are external. Their results are
  parameters of the model.
- Prompt texts and prompt formatting (`prompts.py`) and the current-date strings are left out.
  They are text, with no logic to model.
- The replacement by message id that `add_messages` performs is left out. Every message
  channel is modelled as append-only, because no modelled node re-sends an existing message
  id.
- Branches run in parallel under LangGraph's scheduler, which is not modelled. Their updates
  are merged in dispatch order. For the append channels modelled here the merged order
  follows the dispatch order, whatever the order in which branches finish.
- A channel holding an explicit None and a channel never written are the same `None` in the
  model. `reasoning_model` is an example: `state.get(key, default)` tells the two apart.
- The agent graph's routers `select_route` and `continue_to_knowledge_collection` are not
  modelled, and neither are its nodes other than `call_model` and `tool_call_exists`. They
  are imported from code that is not part of this model. Their decisions are inputs to
  `AgentGraph.RouteNext` and `AgentGraph.CollectNext`.
- `web_content_analysis`, `continue_to_web_content_analysis` and `node_finalize_answer`
  are left out: no module defines them.
- `deep_research/nodes.py` imports `SearchQueryList` from `deep_research/schema.py`, which
  does not define it. The structured output `generate_query` asks for is therefore not
  modelled. `ResearchNodes.GenerateQuery` takes that output's `query` list as a parameter.
- `ResearchState.Merge` and `MemoryState.Merge` take each channel's reducer from its
  annotation, wherever the reducer appears among the annotation's items. For example,
  `Annotated[list, operator.add, "description"]` is modelled as an append channel. LangGraph
  looks for the reducer in the annotation's last item only, and here that item is a
  description string. This affects `search_query`, `web_research_result` and
  `web_scraping_result` (`deep_research/state.py:15-22`), and `messages`,
  `memory_access_registry` and `memory_access_queries` (`memory/state.py:11-28`). In the
  running program these may be last-value channels. There, several branches writing one
  channel in the same step raise, and a write replaces the list instead of extending it.
  The model follows the declared operator.
- `ResearchConfig.Coerce` models the values of the "configurable" section as text, integers
  or None. pydantic's lax `int` fields also accept booleans and floats with no fractional
  part, which the model does not represent.
- `memory/nodes.py` imports `MemoryReadResultsState`, which `memory/state.py` does not
  define. Its `"memory_read_results"` key is not a channel of the memory state either. The
  node is modelled by what it computes (`MemoryNodes.NodeAccessMemory`), not by that
  update. The memory graph's wiring (`memory/graph.py`) is not part of this model.
- The web-page analyzer, the GUI pages, the view model and the launcher scripts are not part
  of this model.
- `lru_cache` on the model factories is left out. It only memoises, and the model is a pure
  function of its arguments.
- `Strings.Lower` and `Strings.Upper` cover ASCII letters only. Python's case mapping of
  other Unicode letters is not modelled.
- `Strings.ParseInt` accepts an optional minus sign followed by ASCII digits. pydantic's lax
  integer parsing also takes a plus sign, surrounding whitespace and underscores.
- `CliRunner.ProcessUserQuery`: the `str(last_message)` branch is left out. Every modelled
  message has a `content` attribute, so that branch cannot run.
- `CliRunner.ErrorText`: the text of a ValidationError is reduced to the failing field's
  name, not pydantic's full message.
- `MemorySchema.ValidateQuery`: the error names only the first failing field, in declaration
  order. pydantic lists every failing field.
- `ChatArchive.GetSessionList` does not state that the sort is stable. Python's sort keeps
  entries with equal timestamps in listing order, but the contract only promises a sorted
  permutation. The session ids come from a set, whose iteration order is not modelled; they
  are an input sequence.
- The knowledge-search results and memory-registry entries of the agent state are modelled
  as strings. Their contents are not read by any modelled code.
- The console's welcome and goodbye printing, the per-turn printing and the loop's
  catch-all for unexpected exceptions are left out. The loop is modelled by the texts it
  shows (`CliRunner.ChatLoop`).
- `ResearchGraph.RunLoop` is driven by a finite sequence of supplied rounds of model and
  search outputs. A run that needs more rounds than supplied ends as `OutOfRounds`, and
  `ResearchGraph.LoopBounded` shows that this only happens below the cap.
- `Chatbot.NewChat` leaves out the system-prompt run that `new_chat` starts.
  `Chatbot.ProcessMessage` models that run.

## Findings

| source | as written | input that shows it | evidently intended | confidence | as-written member | corrected member |
|---|---|---|---|---|---|---|
| app/src/model/graph.py:41-48 | The `results.append(...)` sits inside the `else` branch, so a call to an unknown tool gets no ToolMessage. The error text is computed and dropped. | A last AI message with one tool call named "search" and no tool registered: `execute_tools` returns `{"messages": []}`, and that call is never answered. | Every tool call gets a reply: the tool's output, or the "no such tool" text. | not executed; read from the code | ModelGraph.ExecuteToolsAsWritten (shown by ModelGraph.UnknownToolCallUnanswered) | ModelGraph.ExecuteTools (ModelGraph.Replies, ModelGraph.AgreeWhenAllKnown) |
| app/src/deep_research/nodes.py:46-51 | When queries already exist, `generate_query` returns them as its update, but `search_query` is an `operator.add` channel. The list is appended to itself. | A state with `search_query == ["q"]`: after the merge it holds `["q", "q"]`, and `continue_to_web_research` dispatches two searches for "q". | The existing queries are kept, not written again, so each is searched once. | not executed; read from the code. This holds when `search_query` merges with `operator.add`, as its annotation declares. If LangGraph treats the channel as last-value (see "Left out"), the skip path rewrites the same list and nothing is doubled. | ResearchNodes.GenerateQuery (shown by ResearchNodes.GenerateQuerySkipDuplicates) | ResearchNodes.GenerateQueryIntended (ResearchNodes.GenerateQueryIntendedKeepsQueries) |
