/** `get_research_topic`: a transcript flattened into the text the research prompts quote. */
module ResearchUtils {
  import opened Messages

  /** The line one message contributes to a multi-message transcript. */
  function TopicLine(m: Message): string {
    match m
    case HumanMessage(c, _) => "User: " + c + "\n"
    case AiMessage(c, _, _) => "Assistant: " + c + "\n"
    case _ => ""
  }

  predicate IsConversational(m: Message) {
    m.HumanMessage? || m.AiMessage?
  }

  /** The loop of the multi-message case: every line appended in message order. */
  function TranscriptText(ms: seq<Message>): string {
    if |ms| == 0 then "" else TranscriptText(ms[..|ms| - 1]) + TopicLine(ms[|ms| - 1])
  }

  /** `get_research_topic(messages)`. */
  function GetResearchTopic(ms: seq<Message>): (r: string)
    ensures |ms| == 1 ==> r == ms[0].content
    ensures |ms| == 0 ==> r == ""
    ensures |ms| != 1 ==> r == TranscriptText(Conversational(ms))
  {
    if |ms| == 1 then ms[|ms| - 1].content
    else
      TranscriptSkipsOtherMessages(ms);
      TranscriptText(ms)
  }

  /** Human and AI messages only, in order. */
  function Conversational(ms: seq<Message>): (r: seq<Message>)
    ensures |r| <= |ms|
    ensures forall i :: 0 <= i < |r| ==> IsConversational(r[i])
  {
    if |ms| == 0 then []
    else if IsConversational(ms[|ms| - 1]) then Conversational(ms[..|ms| - 1]) + [ms[|ms| - 1]]
    else Conversational(ms[..|ms| - 1])
  }

  /** A list of human and AI messages is kept whole. */
  lemma {:induction false} ConversationalKeepsAll(ms: seq<Message>)
    requires forall i :: 0 <= i < |ms| ==> IsConversational(ms[i])
    ensures Conversational(ms) == ms
  {
    if |ms| > 0 {
      ConversationalKeepsAll(ms[..|ms| - 1]);
      assert ms[..|ms| - 1] + [ms[|ms| - 1]] == ms;
    }
  }

  /** The transcript of a concatenation is the concatenation of the transcripts. */
  lemma {:induction false} TranscriptTextAppend(a: seq<Message>, b: seq<Message>)
    ensures TranscriptText(a + b) == TranscriptText(a) + TranscriptText(b)
    decreases |b|
  {
    if |b| > 0 {
      var b' := b[..|b| - 1];
      assert (a + b)[..|a + b| - 1] == a + b';
      assert (a + b)[|a + b| - 1] == b[|b| - 1];
      TranscriptTextAppend(a, b');
    } else {
      assert a + b == a;
    }
  }

  /** Messages that are neither human nor AI contribute nothing: the transcript is that of the
      conversational messages alone, and no message type makes it fail. */
  lemma {:induction false} TranscriptSkipsOtherMessages(ms: seq<Message>)
    ensures TranscriptText(ms) == TranscriptText(Conversational(ms))
  {
    if |ms| > 0 {
      var front := ms[..|ms| - 1];
      var last := ms[|ms| - 1];
      TranscriptSkipsOtherMessages(front);
      if IsConversational(last) {
        TranscriptTextAppend(Conversational(front), [last]);
        assert [last][..0] == [];
      }
    }
  }

  /** Each human message becomes "User: c\n" and each AI message "Assistant: c\n", in order. */
  lemma {:induction false} TranscriptLines(ms: seq<Message>, i: nat)
    requires i < |ms|
    ensures TranscriptText(ms) == TranscriptText(ms[..i]) + TopicLine(ms[i]) + TranscriptText(ms[i + 1..])
  {
    assert ms == ms[..i] + [ms[i]] + ms[i + 1..];
    TranscriptTextAppend(ms[..i] + [ms[i]], ms[i + 1..]);
    TranscriptTextAppend(ms[..i], [ms[i]]);
    assert [ms[i]][..0] == [];
  }
}
