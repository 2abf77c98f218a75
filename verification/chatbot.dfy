/** The chatbot object: its current session id, the run config it passes to the graph, and the
    extraction of the reply from a graph run. The graph run itself is opaque: the final message
    list it returns is an input. */
module Chatbot {
  import opened Wrappers
  import opened Messages
  import opened RunConfig

  datatype Chatbot = Chatbot(sessionId: Option<string>)

  /** A new chatbot has no session yet. */
  const Fresh := Chatbot(None)

  /** `new_chat`: a fresh id becomes the session, just as loading that id would (the system
      prompt it then sends only goes to the graph). */
  function NewChat(c: Chatbot, freshId: string): (r: Chatbot)
    ensures r.sessionId == Some(freshId)
  {
    LoadChat(c, freshId)
  }

  /** `load_chat`: the given id becomes the session. */
  function LoadChat(c: Chatbot, sid: string): (r: Chatbot)
    ensures r.sessionId == Some(sid)
  {
    Chatbot(Some(sid))
  }

  /** `create_config`: the session id as the thread, and the fixed user. */
  function CreateConfig(c: Chatbot): (r: RunnableConfig)
    ensures r.configurable.Some?
    ensures "thread_id" in r.configurable.value && "user_id" in r.configurable.value
    ensures r.configurable.value["user_id"] == Text("test_user")
    ensures c.sessionId.Some? ==> r.configurable.value["thread_id"] == Text(c.sessionId.value)
    ensures c.sessionId.None? ==> r.configurable.value["thread_id"] == Null
  {
    RunnableConfig(Some(map[
      "thread_id" := if c.sessionId.Some? then Text(c.sessionId.value) else Null,
      "user_id" := Text("test_user")]))
  }

  /** Whatever happened before, loading a session makes the next run use it as the thread. */
  lemma LoadThenConfig(c: Chatbot, sid: string)
    ensures CreateConfig(LoadChat(c, sid)).configurable.value["thread_id"] == Text(sid)
  {
  }

  /** A message produced by the model's turn: an AI reply or a tool result. */
  predicate IsReply(m: Message) {
    m.TypeTag() == "ai" || m.TypeTag() == "tool"
  }

  /** The loop of `_process_message`: walking back from the end, collecting AI and tool
      messages until the first other message. The result is the longest suffix made only of
      such messages, in the original order. */
  method TrailingReplies(response: seq<Message>) returns (replies: seq<Message>)
    ensures |replies| <= |response| && replies == response[|response| - |replies|..]
    ensures forall i :: 0 <= i < |replies| ==> IsReply(replies[i])
    ensures |replies| < |response| ==> !IsReply(response[|response| - |replies| - 1])
  {
    replies := [];
    var k := |response|;
    while k > 0 && IsReply(response[k - 1])
      invariant 0 <= k <= |response|
      invariant replies == response[k..]
      invariant forall i :: k <= i < |response| ==> IsReply(response[i])
    {
      replies := [response[k - 1]] + replies;
      k := k - 1;
    }
  }

  /** What a run of `_process_message` sends to the graph and returns. */
  datatype Processed = Processed(input: seq<Message>, config: RunnableConfig, replies: seq<Message>)

  /** `_process_message`: the one new message goes to the graph under the chatbot's config,
      and the trailing replies of the final message list come back. */
  method ProcessMessage(c: Chatbot, m: Message, finalMessages: seq<Message>) returns (r: Processed)
    ensures r.input == [m] && r.config == CreateConfig(c)
    ensures |r.replies| <= |finalMessages| && r.replies == finalMessages[|finalMessages| - |r.replies|..]
    ensures forall i :: 0 <= i < |r.replies| ==> IsReply(r.replies[i])
    ensures |finalMessages| > 0 && !IsReply(finalMessages[|finalMessages| - 1]) ==> r.replies == []
    ensures |r.replies| < |finalMessages| ==> !IsReply(finalMessages[|finalMessages| - |r.replies| - 1])
  {
    var replies := TrailingReplies(finalMessages);
    r := Processed([m], CreateConfig(c), replies);
  }
}
