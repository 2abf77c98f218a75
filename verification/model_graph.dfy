/** The simple chatbot graph: the model and a tool executor in a loop over one message channel
    (`operator.add`). The model and the tools are opaque: the model's reply is an input, and
    `invoke` gives `str(result)` of running a call's tool on its arguments, or the exception
    the tool raised. The tool table is
    the one `init_state_graph` installs, reduced to its names. */
module ModelGraph {
  import opened Wrappers
  import opened Messages
  import opened Reducers
  import opened Graphs

  datatype State = State(messages: seq<Message>)

  datatype Update = Update(messages: Option<seq<Message>>)

  function Merge(s: State, u: Update): (r: State)
    ensures Appended(s.messages, u.messages, r.messages)
  {
    State(AppendWrite(s.messages, u.messages))
  }

  /** `run_llm`: the whole conversation goes to the model, and its reply is appended. */
  function RunLlm(s: State, reply: Message): (r: Update)
    ensures r.messages == Some([reply])
    ensures Merge(s, r).messages[..|s.messages|] == s.messages
    ensures |Merge(s, r).messages| == |s.messages| + 1 && Merge(s, r).messages[|s.messages|] == reply
  {
    Update(Some([reply]))
  }

  const NoSuchTool := "Error: There's no such tool, please try again"

  /** The reply to one call, carrying the text its tool returned. */
  function ToolReply(call: ToolCall, out: string): Message {
    ToolMessage(out, call.id, call.name, NoKwargs)
  }

  /** Whether answering the call raises: only a registered tool is run, and it may raise. */
  predicate Raises(call: ToolCall, registry: set<string>, invoke: ToolCall -> Result<string>) {
    call.name in registry && invoke(call).Err?
  }

  /** The reply the loop body computes for one call: the tool's output when the tool is
      registered (or what running it raised), the error text otherwise. */
  function Answer(call: ToolCall, registry: set<string>, invoke: ToolCall -> Result<string>): (r: Result<Message>)
    ensures r.Err? <==> Raises(call, registry, invoke)
    ensures r.Err? ==> r.error == invoke(call).error
    ensures r.Ok? ==> r.value.ToolMessage? && r.value.toolCallId == call.id && r.value.name == call.name
    ensures r.Ok? ==> r.value.content == (if call.name in registry then invoke(call).value else NoSuchTool)
  {
    if call.name in registry then
      var out :- invoke(call);
      Ok(ToolReply(call, out))
    else Ok(ToolMessage(NoSuchTool, call.id, call.name, NoKwargs))
  }

  /** The calls whose tool is registered, in call order. */
  function Registered(calls: seq<ToolCall>, registry: set<string>): (r: seq<ToolCall>)
    ensures |r| <= |calls|
    ensures forall c :: c in r <==> c in calls && c.name in registry
  {
    if |calls| == 0 then []
    else if calls[0].name in registry then [calls[0]] + Registered(calls[1..], registry)
    else Registered(calls[1..], registry)
  }

  /** Filtering distributes over concatenation: the kept calls stay in call order. */
  lemma {:induction false} RegisteredAppend(a: seq<ToolCall>, b: seq<ToolCall>, registry: set<string>)
    ensures Registered(a + b, registry) == Registered(a, registry) + Registered(b, registry)
  {
    if |a| == 0 {
      assert a + b == b;
    } else {
      assert (a + b)[0] == a[0];
      assert (a + b)[1..] == a[1..] + b;
      RegisteredAppend(a[1..], b, registry);
    }
  }

  /** A single call is kept exactly when its tool is registered. */
  lemma RegisteredOne(c: ToolCall, registry: set<string>)
    ensures Registered([c], registry) == if c.name in registry then [c] else []
  {
  }

  /** The loop with the append after the `if`, as evidently intended: one reply per call, in
      call order, unless some registered tool raises, and then the first such exception. */
  function Replies(calls: seq<ToolCall>, registry: set<string>, invoke: ToolCall -> Result<string>): (r: Result<seq<Message>>)
    ensures r.Ok? <==> forall i :: 0 <= i < |calls| ==> !Raises(calls[i], registry, invoke)
    ensures r.Ok? ==> |r.value| == |calls|
    ensures r.Ok? ==> forall i :: 0 <= i < |calls| ==> Answer(calls[i], registry, invoke) == Ok(r.value[i])
    ensures r.Err? ==> exists i :: 0 <= i < |calls| && Raises(calls[i], registry, invoke)
                                   && r.error == invoke(calls[i]).error
                                   && forall j :: 0 <= j < i ==> !Raises(calls[j], registry, invoke)
  {
    if |calls| == 0 then Ok([])
    else
      var first :- Answer(calls[0], registry, invoke);
      var rest := Replies(calls[1..], registry, invoke);
      if rest.Err? then
        assert !Raises(calls[0], registry, invoke);
        Err(rest.error)
      else
        Ok([first] + rest.value)
  }

  /** The loop of `execute_tools` as written: the append sits inside the `else` branch, so the
      replies are exactly those the intended loop gives for the registered calls alone. */
  function RepliesAsWritten(calls: seq<ToolCall>, registry: set<string>, invoke: ToolCall -> Result<string>): (r: Result<seq<Message>>)
    ensures r == Replies(Registered(calls, registry), registry, invoke)
  {
    if |calls| == 0 then Ok([])
    else if calls[0].name in registry then
      var out :- invoke(calls[0]);
      var rest :- RepliesAsWritten(calls[1..], registry, invoke);
      Ok([ToolReply(calls[0], out)] + rest)
    else RepliesAsWritten(calls[1..], registry, invoke)
  }

  /** `execute_tools` as written: the tool calls of the last message are run in order, and one
      tool message is produced per call whose tool is registered. For an unregistered tool the
      error text is computed but never appended, so that call gets no reply at all. */
  function ExecuteToolsAsWritten(s: State, registry: set<string>, invoke: ToolCall -> Result<string>): (r: Result<Update>)
    ensures |s.messages| == 0 ==> r.Err? && r.error.IndexError?
    ensures |s.messages| > 0 && s.messages[|s.messages| - 1].AiMessage? ==>
              var calls := s.messages[|s.messages| - 1].toolCalls;
              match Replies(Registered(calls, registry), registry, invoke)
              case Ok(ms) => r == Ok(Update(Some(ms)))
              case Err(e) => r == Err(e)
    ensures |s.messages| > 0 && !s.messages[|s.messages| - 1].AiMessage? ==> r == Err(AttributeError("tool_calls"))
  {
    if |s.messages| == 0 then Err(IndexError("list index out of range"))
    else
      var calls :- s.messages[|s.messages| - 1].ToolCallsAttr();
      var replies :- RepliesAsWritten(calls, registry, invoke);
      Ok(Update(Some(replies)))
  }

  /** `execute_tools` with the error text appended as that call's reply: every call of the last
      message gets exactly one reply, in call order, carrying the call's id and name, unless a
      registered tool raises, which aborts the node with the first such exception. */
  function ExecuteTools(s: State, registry: set<string>, invoke: ToolCall -> Result<string>): (r: Result<Update>)
    ensures |s.messages| == 0 ==> r.Err? && r.error.IndexError?
    ensures |s.messages| > 0 && !s.messages[|s.messages| - 1].AiMessage? ==> r == Err(AttributeError("tool_calls"))
    ensures r.Ok? <==> && |s.messages| > 0 && s.messages[|s.messages| - 1].AiMessage?
                       && forall c :: c in s.messages[|s.messages| - 1].toolCalls ==> !Raises(c, registry, invoke)
    ensures r.Ok? ==> var calls := s.messages[|s.messages| - 1].toolCalls;
              && r.value.messages.Some? && |r.value.messages.value| == |calls|
              && forall i :: 0 <= i < |calls| ==>
                   var m := r.value.messages.value[i];
                   && m.ToolMessage? && m.toolCallId == calls[i].id && m.name == calls[i].name
                   && (if calls[i].name in registry then invoke(calls[i]) == Ok(m.content) else m.content == NoSuchTool)
  {
    if |s.messages| == 0 then Err(IndexError("list index out of range"))
    else
      var calls :- s.messages[|s.messages| - 1].ToolCallsAttr();
      var replies :- Replies(calls, registry, invoke);
      Ok(Update(Some(replies)))
  }

  /** The conversation of the counterexample: the model asked for a tool nobody registered. */
  const UnknownCall := ToolCall("call_1", "no_such_tool", "{}")
  const AskedUnknown := State([HumanMessage("hi", NoKwargs), AiMessage("", [UnknownCall], NoKwargs)])

  /** With no tool registered, the code as written replies nothing and leaves the call
      unanswered, where the corrected executor answers it with the error text. */
  lemma UnknownToolCallUnanswered(invoke: ToolCall -> Result<string>)
    ensures ExecuteToolsAsWritten(AskedUnknown, {}, invoke) == Ok(Update(Some([])))
    ensures ExecuteTools(AskedUnknown, {}, invoke)
            == Ok(Update(Some([ToolMessage(NoSuchTool, "call_1", "no_such_tool", NoKwargs)])))
  {
    var calls := [UnknownCall];
    assert AskedUnknown.messages[|AskedUnknown.messages| - 1].ToolCallsAttr() == Ok(calls);
    assert RepliesAsWritten(calls, {}, invoke) == RepliesAsWritten(calls[1..], {}, invoke) == Ok([]);
    assert Replies(calls[1..], {}, invoke) == Ok([]);
    var reply := ToolMessage(NoSuchTool, "call_1", "no_such_tool", NoKwargs);
    assert Answer(UnknownCall, {}, invoke) == Ok(reply);
    assert [reply] + [] == [reply];
    assert Replies(calls, {}, invoke) == Ok([reply]);
  }

  /** When every requested tool is registered, the filter keeps every call. */
  lemma {:induction false} RegisteredAll(calls: seq<ToolCall>, registry: set<string>)
    requires forall c :: c in calls ==> c.name in registry
    ensures Registered(calls, registry) == calls
  {
    if |calls| > 0 {
      assert calls[0] in calls;
      assert forall c :: c in calls[1..] ==> c in calls;
      RegisteredAll(calls[1..], registry);
      assert [calls[0]] + calls[1..] == calls;
    }
  }

  /** When every requested tool is registered the two loops agree, raised exceptions included. */
  lemma AgreeWhenAllKnown(calls: seq<ToolCall>, registry: set<string>, invoke: ToolCall -> Result<string>)
    requires forall c :: c in calls ==> c.name in registry
    ensures RepliesAsWritten(calls, registry, invoke) == Replies(calls, registry, invoke)
  {
    RegisteredAll(calls, registry);
  }

  /** `tool_exists`: whether the last message asks for tools. */
  function ToolExists(s: State): (r: Result<bool>)
    ensures r.Ok? <==> |s.messages| > 0 && s.messages[|s.messages| - 1].AiMessage?
    ensures r.Ok? ==> (r.value <==> |s.messages[|s.messages| - 1].toolCalls| > 0)
  {
    LastHasToolCalls(s.messages)
  }

  datatype ModelNode = Start | Llm | Tools | End

  /** `init_state_graph`'s builder calls: the entry point, the conditional edge with its path map,
      and the edge back from the tools. */
  const Edges: seq<Edge<ModelNode>> := [
    Conditional(Llm, {Tools, End}),
    Direct(Tools, Llm),
    Direct(Start, Llm)
  ]

  /** The router after `llm`, through its path map `{True: "tools", False: END}`. */
  function LlmNext(s: State): (r: Result<ModelNode>)
    ensures r.Ok? <==> ToolExists(s).Ok?
    ensures r == Ok(Tools) <==> ToolExists(s) == Ok(true)
    ensures r == Ok(End) <==> ToolExists(s) == Ok(false)
  {
    var more :- ToolExists(s);
    Ok(if more then Tools else End)
  }

  /** The run enters at the model, the model goes to the tools or ends, and the tools always
      hand back to the model. */
  lemma Wiring()
    ensures Successors(Edges, Start) == {Llm}
    ensures Successors(Edges, Llm) == {Tools, End}
    ensures Successors(Edges, Tools) == {Llm}
    ensures Successors(Edges, End) == {}
  {
    assert Edges[1..][1..][1..] == [];
  }

  /** After the model replies, the run ends exactly when the reply asks for no tool. */
  lemma ReplyDecides(s: State, reply: Message)
    requires reply.AiMessage?
    ensures LlmNext(Merge(s, RunLlm(s, reply))) == Ok(if |reply.toolCalls| > 0 then Tools else End)
    ensures LlmNext(Merge(s, RunLlm(s, reply))).value in Successors(Edges, Llm)
  {
    Wiring();
  }
}
