/** The nodes of the main agent graph whose code is part of the model: the model call and the
    tool-call test. */
module AgentNodes {
  import opened Wrappers
  import opened Messages
  import opened RunConfig
  import opened ChatModels
  import opened AgentState

  /** The agent's `_get_model`: the shared provider check at temperature 0, with the agent's
      tools bound. */
  function GetModel(name: Raw, tools: seq<Tool>): (r: Result<ChatModel>)
    ensures r.Ok? <==> name == Text("openai")
    ensures r.Ok? ==> r.value == ChatModel("gpt-4o", 0.0, tools)
    ensures name == Text("anthropic") ==> r.Err? && r.error.NotImplementedError?
    ensures r.Err? && name != Text("anthropic") ==> r.error.ValueError?
  {
    var m :- SelectModel(name, 0.0);
    Ok(m.(boundTools := tools))
  }

  /** What `call_model` sends to the model and what it writes back. */
  datatype CallModelOutput = CallModelOutput(model: ChatModel, request: seq<Message>, update: AgentUpdate)

  /** `call_model`: the system prompt, then the conversation, go to the configured model (the
      "openai" one by default); its reply `response` is appended as one new message. */
  function CallModel(s: AgentState, config: Option<RunnableConfig>, tools: seq<Tool>, systemPrompt: string,
                     response: Message): (r: Result<CallModelOutput>)
    ensures r.Ok? <==> ModelName(config) == Text("openai")
    ensures "model_name" !in Configurable(config) ==> r.Ok?
    ensures r.Ok? ==> r.value.model.boundTools == tools
    ensures r.Ok? ==> |r.value.request| == |s.messages| + 1
                      && r.value.request[0] == SystemMessage(systemPrompt, NoKwargs)
                      && r.value.request[1..] == s.messages
    ensures r.Ok? ==> r.value.update == NoAgentWrites.(messages := Some([response]))
    ensures r.Ok? ==> |MergeAgent(s, r.value.update).messages| == |s.messages| + 1
  {
    var model :- GetModel(ModelName(config), tools);
    Ok(CallModelOutput(model, [SystemMessage(systemPrompt, NoKwargs)] + s.messages,
                       NoAgentWrites.(messages := Some([response]))))
  }

  /** `tool_call_exists`: whether the last message asks for tools. */
  function ToolCallExists(s: AgentState): (r: Result<bool>)
    ensures |s.messages| == 0 ==> r.Err? && r.error.IndexError?
    ensures |s.messages| > 0 && !s.messages[|s.messages| - 1].AiMessage? ==> r.Err? && r.error.AttributeError?
    ensures r.Ok? <==> |s.messages| > 0 && s.messages[|s.messages| - 1].AiMessage?
    ensures r.Ok? ==> (r.value <==> |s.messages[|s.messages| - 1].toolCalls| > 0)
  {
    LastHasToolCalls(s.messages)
  }

  /** After the model call's update is merged, the reply is the last message, nothing else in
      the state changes, and `tool_call_exists` then asks exactly whether the reply requested
      tools. */
  lemma CallModelThenRoute(s: AgentState, config: Option<RunnableConfig>, tools: seq<Tool>, systemPrompt: string,
                           response: Message)
    requires ModelName(config) == Text("openai")
    requires response.AiMessage?
    ensures CallModel(s, config, tools, systemPrompt, response).Ok?
    ensures var s2 := MergeAgent(s, CallModel(s, config, tools, systemPrompt, response).value.update);
            && s2.messages == s.messages + [response]
            && s2 == s.(messages := s2.messages)
            && ToolCallExists(s2) == Ok(|response.toolCalls| > 0)
  {
  }
}
