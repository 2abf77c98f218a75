/** The console runner: reading a line, deciding to quit, turning a graph run into the text
    shown, and the chat loop. The console and the graph are inputs: each turn of the loop is
    what the user typed (or the end of input, or an interrupt) and how the run of the agent
    graph on it ended. */
module CliRunner {
  import opened Wrappers
  import opened Messages
  import opened Strings
  import opened RunConfig
  import AgentState

  /** What `input()` did. */
  datatype InputEvent = Line(text: string) | EndOfInput | Interrupted

  /** `get_user_input`: the stripped line; the end of input or an interrupt reads as "quit". */
  function GetUserInput(e: InputEvent): (r: string)
    ensures e.Line? ==> r == Strip(e.text)
    ensures !e.Line? ==> r == "quit"
  {
    if e.Line? then Strip(e.text) else "quit"
  }

  /** `should_quit`: the lower-cased input is one of the quit words, or empty. */
  predicate ShouldQuit(s: string) {
    Lower(s) in ["quit", "exit", "q", ""]
  }

  /** Case does not matter to quitting, and blank input quits. */
  lemma QuitWords(s: string)
    ensures ShouldQuit("QUIT") && ShouldQuit("Exit") && ShouldQuit("q") && ShouldQuit("")
    ensures ShouldQuit(s) ==> |s| <= 4
    ensures !ShouldQuit("quit now")
  {
    assert Lower("QUIT") == "quit";
    assert Lower("Exit") == "exit";
    assert Lower("q") == "q";
    if ShouldQuit(s) {
      assert |Lower(s)| <= 4;
    }
  }

  /** An input the loop does not quit on is never empty, so its `continue` on empty input is
      never taken. */
  lemma ContinueUnreachable(e: InputEvent)
    ensures !ShouldQuit(GetUserInput(e)) ==> GetUserInput(e) != ""
  {
  }

  /** The result dictionary of a graph run: the keys the runner reads. */
  datatype GraphResult = GraphResult(answer: Option<string>, messages: Option<seq<Message>>)

  /** How a run of the graph ended. An interrupt is not an `Exception`, so the runner does not
      catch it. */
  datatype GraphOutcome = Returned(result: GraphResult) | Raised(error: Exception) | Stopped

  const Apology := "I'm sorry, I couldn't process your request at the moment."
  const ErrorPrefix := "I encountered an error while processing your request: "
  const UnexpectedError := "I'm sorry, I encountered an unexpected error while processing your request."

  /** The exceptions the runner reports with their text: ValueError, TypeError and RuntimeError,
      with their subclasses. */
  predicate Reported(e: Exception) {
    e.IsValueError() || e.TypeError? || e.IsRuntimeError()
  }

  /** `str(e)` of a reported exception. */
  function ErrorText(e: Exception): string
    requires Reported(e)
  {
    match e
    case ValueError(msg) => msg
    case ValidationError(field) => field
    case TypeError(msg) => msg
    case RuntimeError(msg) => msg
    case NotImplementedError(msg) => msg
  }

  /** `process_user_query` once the run has ended, for a run that ends with a value or an
      exception: a non-empty answer first, then the last message of a longer conversation, then
      the apology; exceptions become an error text. */
  function ProcessUserQuery(outcome: GraphOutcome): (r: string)
    requires !outcome.Stopped?
    ensures outcome.Returned? && outcome.result.answer.Some? && outcome.result.answer.value != "" ==>
              r == outcome.result.answer.value
    ensures outcome.Returned? && (outcome.result.answer.None? || outcome.result.answer.value == "")
            && outcome.result.messages.Some? && |outcome.result.messages.value| > 1 ==>
              r == outcome.result.messages.value[|outcome.result.messages.value| - 1].content
    ensures outcome.Returned? && (outcome.result.answer.None? || outcome.result.answer.value == "")
            && (outcome.result.messages.None? || |outcome.result.messages.value| <= 1) ==>
              r == Apology
    ensures outcome.Raised? && Reported(outcome.error) ==> r == ErrorPrefix + ErrorText(outcome.error)
    ensures outcome.Raised? && !Reported(outcome.error) ==> r == UnexpectedError
  {
    match outcome
    case Returned(res) =>
      if res.answer.Some? && res.answer.value != "" then res.answer.value
      else if res.messages.Some? && |res.messages.value| > 1 then res.messages.value[|res.messages.value| - 1].content
      else Apology
    case Raised(e) =>
      if Reported(e) then ErrorPrefix + ErrorText(e) else UnexpectedError
  }

  /** The agent's refusals of a model name reach the user with their text: an unsupported name
      is a ValueError and "anthropic" a NotImplementedError, a RuntimeError. A missing key or
      index is not reported. */
  lemma ModelErrorsAreReported(msg: string, key: string)
    ensures ProcessUserQuery(Raised(ValueError(msg))) == ErrorPrefix + msg
    ensures ProcessUserQuery(Raised(NotImplementedError(msg))) == ErrorPrefix + msg
    ensures ProcessUserQuery(Raised(KeyError(key))) == UnexpectedError
    ensures ProcessUserQuery(Raised(IndexError(msg))) == UnexpectedError
  {
  }

  /** The runner's fixed run config: its thread, and the "openai" model. */
  function RunnerConfig(threadId: string): (r: RunnableConfig)
    ensures ModelName(Some(r)) == Text("openai")
    ensures "thread_id" in Configurable(Some(r)) && Configurable(Some(r))["thread_id"] == Text(threadId)
  {
    RunnableConfig(Some(map["thread_id" := Text(threadId), "model_name" := Text("openai")]))
  }

  /** The state a query starts the graph from: just the user's message. */
  function InitialState(userInput: string): (r: AgentState.AgentState)
    ensures r.messages == [HumanMessage(userInput, NoKwargs)]
  {
    AgentState.AgentState(None, None, [HumanMessage(userInput, NoKwargs)])
  }

  /** One pass of the loop: what the user typed, and how the run on it ended. */
  datatype Turn = Turn(input: InputEvent, outcome: GraphOutcome)

  /** Whether the loop leaves at this turn: on a quit input, or an interrupt during the run. */
  predicate Leaves(t: Turn) {
    ShouldQuit(GetUserInput(t.input)) || t.outcome.Stopped?
  }

  /** What one pass of the loop shows: nothing when it leaves, the response otherwise. */
  function TurnText(t: Turn): (r: Option<string>)
    ensures r.None? <==> Leaves(t)
    ensures r.Some? ==> r.value == ProcessUserQuery(t.outcome)
  {
    if Leaves(t) then None else Some(ProcessUserQuery(t.outcome))
  }

  /** A loop over `xs` from index `n` that shows what `step` gives for each item, and stops
      at the first item for which it gives nothing or when the items run out. */
  function LoopFrom<T>(xs: seq<T>, n: nat, step: T -> Option<string>): (shown: seq<string>)
    requires n <= |xs|
    ensures |shown| <= |xs| - n
    decreases |xs| - n
  {
    if n == |xs| || step(xs[n]).None? then []
    else [step(xs[n]).value] + LoopFrom(xs, n + 1, step)
  }

  /** From index `n`, the loop shows one text per item up to the first stopping item `q`. */
  lemma {:induction false} LoopLength<T>(xs: seq<T>, n: nat, q: nat, step: T -> Option<string>)
    requires n <= q <= |xs|
    requires forall i :: n <= i < q ==> step(xs[i]).Some?
    requires q < |xs| ==> step(xs[q]).None?
    ensures |LoopFrom(xs, n, step)| == q - n
    decreases q - n
  {
    if n < q {
      LoopLength(xs, n + 1, q, step);
    }
  }

  /** From index `n`, an item `k` reached without stopping shows what `step` gives for it. */
  lemma {:induction false} LoopAt<T>(xs: seq<T>, n: nat, k: nat, step: T -> Option<string>)
    requires n <= k < |xs|
    requires forall i :: n <= i <= k ==> step(xs[i]).Some?
    ensures k - n < |LoopFrom(xs, n, step)| && LoopFrom(xs, n, step)[k - n] == step(xs[k]).value
    decreases k - n
  {
    if n < k {
      LoopAt(xs, n + 1, k, step);
    }
  }

  /** The loop shows exactly one text per item before the first stopping item `q`, each the
      text `step` gives for that item. */
  lemma LoopShowsUntilStop<T>(xs: seq<T>, q: nat, step: T -> Option<string>)
    requires q <= |xs|
    requires forall i :: 0 <= i < q ==> step(xs[i]).Some?
    requires q < |xs| ==> step(xs[q]).None?
    ensures |LoopFrom(xs, 0, step)| == q
    ensures forall i :: 0 <= i < q ==> LoopFrom(xs, 0, step)[i] == step(xs[i]).value
  {
    LoopLength(xs, 0, q, step);
    forall k | 0 <= k < q
      ensures LoopFrom(xs, 0, step)[k] == step(xs[k]).value
    {
      LoopAt(xs, 0, k, step);
    }
  }

  /** `run_chat_loop`: the texts shown, one per turn, until the user quits or interrupts; when
      the input runs out the next read is the end of input, which quits. */
  function ChatLoop(turns: seq<Turn>): (shown: seq<string>)
    ensures |shown| <= |turns|
  {
    LoopFrom(turns, 0, TurnText)
  }

  /** Every turn before the first leaving one gets exactly its response, in order, and nothing
      is shown after it. */
  lemma ChatLoopAnswersUntilQuit(turns: seq<Turn>, q: nat)
    requires q <= |turns|
    requires forall i :: 0 <= i < q ==> !Leaves(turns[i])
    requires q < |turns| ==> Leaves(turns[q])
    ensures |ChatLoop(turns)| == q
    ensures forall i :: 0 <= i < q ==> !Leaves(turns[i]) && ChatLoop(turns)[i] == ProcessUserQuery(turns[i].outcome)
  {
    LoopShowsUntilStop(turns, q, TurnText);
  }
}
