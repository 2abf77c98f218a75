/** The chat messages that flow through every graph, restricted to the attributes the code reads. */
module Messages {
  import opened Wrappers

  /** One tool call requested by an AI message: `{"id", "name", "args"}`. */
  datatype ToolCall = ToolCall(id: string, name: string, args: string)

  /** The `additional_kwargs` keys the code reads or writes. */
  datatype Kwargs = Kwargs(timestamp: Option<int>, time: Option<string>, date: Option<string>)

  const NoKwargs := Kwargs(None, None, None)

  /** LangChain's message classes. Only AI messages have a `tool_calls` attribute. */
  datatype Message =
    | HumanMessage(content: string, kwargs: Kwargs)
    | AiMessage(content: string, toolCalls: seq<ToolCall>, kwargs: Kwargs)
    | ToolMessage(content: string, toolCallId: string, name: string, kwargs: Kwargs)
    | SystemMessage(content: string, kwargs: Kwargs)
  {
    /** The `type` attribute of the message. */
    function TypeTag(): string {
      match this
      case HumanMessage(_, _) => "human"
      case AiMessage(_, _, _) => "ai"
      case ToolMessage(_, _, _, _) => "tool"
      case SystemMessage(_, _) => "system"
    }

    /** Reading `message.tool_calls`; any class but AI raises AttributeError. */
    function ToolCallsAttr(): (r: Result<seq<ToolCall>>)
      ensures r.Ok? <==> AiMessage?
      ensures r.Ok? ==> r.value == toolCalls
    {
      if AiMessage? then Ok(toolCalls) else Err(AttributeError("tool_calls"))
    }
  }

  /** `len(messages[-1].tool_calls) > 0`, with the IndexError of an empty list and the
      AttributeError of a last message that is not an AI message. */
  function LastHasToolCalls(messages: seq<Message>): (r: Result<bool>)
    ensures |messages| == 0 ==> r.Err? && r.error.IndexError?
    ensures |messages| > 0 ==> (r.Ok? <==> messages[|messages| - 1].AiMessage?)
    ensures r.Ok? ==> (r.value <==> |messages[|messages| - 1].toolCalls| > 0)
  {
    if |messages| == 0 then Err(IndexError("list index out of range"))
    else
      var calls :- messages[|messages| - 1].ToolCallsAttr();
      Ok(|calls| > 0)
  }
}
