/** `chat_to_str`: the agent's variant of transcript flattening, over message dictionaries. */
module AgentUtils {
  import opened Wrappers
  import opened Messages
  import ResearchUtils

  /** A message given as a dictionary: `role`, `type` and `content` keys, each possibly absent. */
  datatype DictMessage = DictMessage(role: Option<string>, mtype: Option<string>, content: Option<string>)

  predicate IsUser(m: DictMessage) {
    m.role == Some("user") || m.mtype == Some("human")
  }

  predicate IsAssistant(m: DictMessage) {
    m.role == Some("assistant") || m.mtype == Some("ai")
  }

  predicate IsKnown(m: DictMessage) {
    IsUser(m) || IsAssistant(m)
  }

  function ContentOf(m: DictMessage): string {
    m.content.GetOr("")
  }

  /** The line a recognised message contributes; the user test is made first. */
  function ChatLine(m: DictMessage): string
    requires IsKnown(m)
  {
    if IsUser(m) then "User: " + ContentOf(m) + "\n" else "Assistant: " + ContentOf(m) + "\n"
  }

  /** The lines of a list of recognised messages, one per message and in order: a message that
      passes the user test is labelled "User", even when it also passes the assistant test. */
  function Lines(ms: seq<DictMessage>): (r: seq<string>)
    requires forall i :: 0 <= i < |ms| ==> IsKnown(ms[i])
    ensures |r| == |ms|
    ensures forall i :: 0 <= i < |ms| ==>
              r[i] == (if IsUser(ms[i]) then "User: " else "Assistant: ") + ContentOf(ms[i]) + "\n"
  {
    seq(|ms|, i requires 0 <= i < |ms| => ChatLine(ms[i]))
  }

  /** The text of a list of lines, first line first. */
  function Concat(lines: seq<string>): string {
    if |lines| == 0 then "" else lines[0] + Concat(lines[1..])
  }

  /** Adding a line at the end adds its text at the end. */
  lemma {:induction false} ConcatSnoc(lines: seq<string>, x: string)
    ensures Concat(lines + [x]) == Concat(lines) + x
    decreases |lines|
  {
    if |lines| > 0 {
      assert (lines + [x])[1..] == lines[1..] + [x];
      ConcatSnoc(lines[1..], x);
    } else {
      assert [x][1..] == [];
    }
  }

  /** The loop of the multi-message case: it raises on the first unrecognised message, and
      otherwise its text is the messages' lines joined in order. */
  function ChatLines(ms: seq<DictMessage>): (r: Result<string>)
    ensures r.Ok? <==> forall i :: 0 <= i < |ms| ==> IsKnown(ms[i])
    ensures r.Err? ==> r.error.ValueError?
    ensures r.Ok? ==> r.value == Concat(Lines(ms))
  {
    if |ms| == 0 then Ok("")
    else
      var front :- ChatLines(ms[..|ms| - 1]);
      var last := ms[|ms| - 1];
      assert forall i :: 0 <= i < |ms| - 1 ==> ms[..|ms| - 1][i] == ms[i];
      if IsKnown(last) then
        assert Lines(ms) == Lines(ms[..|ms| - 1]) + [ChatLine(last)];
        ConcatSnoc(Lines(ms[..|ms| - 1]), ChatLine(last));
        Ok(front + ChatLine(last))
      else Err(ValueError("Unknown message type"))
  }

  /** `chat_to_str(messages)`. */
  function ChatToStr(ms: seq<DictMessage>): (r: Result<string>)
    ensures |ms| == 1 ==> r == Ok(ContentOf(ms[0]))
    ensures |ms| == 0 ==> r == Ok("")
    ensures |ms| != 1 ==> (r.Err? <==> exists i :: 0 <= i < |ms| && !IsKnown(ms[i]))
    ensures r.Err? ==> r.error.ValueError?
    ensures |ms| != 1 && r.Ok? ==> r.value == Concat(Lines(ms))
  {
    if |ms| == 1 then Ok(ContentOf(ms[|ms| - 1])) else ChatLines(ms)
  }

  /** A message seen as the dictionary its `dict()` gives: keyed by `type`, with no `role`. */
  function AsDict(m: Message): DictMessage {
    DictMessage(None, Some(m.TypeTag()), Some(m.content))
  }

  function AsDicts(ms: seq<Message>): (r: seq<DictMessage>)
    ensures |r| == |ms|
    ensures forall i :: 0 <= i < |ms| ==> r[i] == AsDict(ms[i])
  {
    seq(|ms|, i requires 0 <= i < |ms| => AsDict(ms[i]))
  }

  /** The chat-completion role of a message. */
  function Role(m: Message): string {
    match m
    case HumanMessage(_, _) => "user"
    case AiMessage(_, _, _) => "assistant"
    case ToolMessage(_, _, _, _) => "tool"
    case SystemMessage(_, _) => "system"
  }

  /** A message given in the chat-completion form: keyed by `role`, with no `type`. */
  function AsRoleDict(m: Message): DictMessage {
    DictMessage(Some(Role(m)), None, Some(m.content))
  }

  function AsRoleDicts(ms: seq<Message>): (r: seq<DictMessage>)
    ensures |r| == |ms|
    ensures forall i :: 0 <= i < |ms| ==> r[i] == AsRoleDict(ms[i])
  {
    seq(|ms|, i requires 0 <= i < |ms| => AsRoleDict(ms[i]))
  }

  /** The dictionary `d` stands for the human or AI message `m`: same content, and it passes
      the user test for a human message and only the assistant test for an AI message. */
  predicate Describes(d: DictMessage, m: Message) {
    && d.content == Some(m.content)
    && (m.HumanMessage? ==> IsUser(d))
    && (m.AiMessage? ==> IsAssistant(d) && !IsUser(d))
  }

  /** On dictionaries that stand for human and AI messages, whichever keys they use, the loop
      produces the same text as `get_research_topic`'s loop. */
  lemma {:induction false} ChatLinesAgreeWithTranscript(ds: seq<DictMessage>, ms: seq<Message>)
    requires |ds| == |ms|
    requires forall i :: 0 <= i < |ms| ==> ResearchUtils.IsConversational(ms[i]) && Describes(ds[i], ms[i])
    ensures ChatLines(ds) == Ok(ResearchUtils.TranscriptText(ms))
  {
    if |ms| > 0 {
      ChatLinesAgreeWithTranscript(ds[..|ds| - 1], ms[..|ms| - 1]);
    }
  }

  /** Both the `type`-keyed and the `role`-keyed forms of human and AI messages describe them. */
  lemma DictFormsDescribe(ms: seq<Message>)
    requires forall i :: 0 <= i < |ms| ==> ResearchUtils.IsConversational(ms[i])
    ensures ChatLines(AsDicts(ms)) == Ok(ResearchUtils.TranscriptText(ms))
    ensures ChatLines(AsRoleDicts(ms)) == Ok(ResearchUtils.TranscriptText(ms))
  {
    var ds, rs := AsDicts(ms), AsRoleDicts(ms);
    forall i | 0 <= i < |ms|
      ensures Describes(ds[i], ms[i]) && Describes(rs[i], ms[i])
    {
      assert ds[i] == AsDict(ms[i]) && rs[i] == AsRoleDict(ms[i]);
    }
    ChatLinesAgreeWithTranscript(ds, ms);
    ChatLinesAgreeWithTranscript(rs, ms);
  }

  /** The two variants agree on transcripts of human and AI messages in either dictionary form;
      they differ only in that `chat_to_str` raises where `get_research_topic` skips. */
  lemma ChatToStrAgreesWithResearchTopic(ms: seq<Message>)
    requires forall i :: 0 <= i < |ms| ==> ResearchUtils.IsConversational(ms[i])
    ensures ChatToStr(AsDicts(ms)) == Ok(ResearchUtils.GetResearchTopic(ms))
    ensures ChatToStr(AsRoleDicts(ms)) == Ok(ResearchUtils.GetResearchTopic(ms))
  {
    if |ms| != 1 {
      DictFormsDescribe(ms);
      ResearchUtils.ConversationalKeepsAll(ms);
    }
  }
}
