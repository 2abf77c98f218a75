/** The older chat-history module: the same instance cache, a global registry of new-message
    callbacks, the message history that stamps and announces each message before storing it,
    the archive's session listing with an optional limit, and a vector store that needs
    embeddings. The clock is an input; callbacks are known by name, and what each one does to
    the message it is handed is an input too. */
module LegacyHistory {
  import opened Wrappers
  import opened Messages
  import opened HistoryCache
  import AppHistory

  /** The module-level callback list, each callback known by its name. */
  datatype Registry = Registry(callbacks: seq<string>)

  /** What a callback leaves of the message object it is handed: a callback may modify the
      message in place before it is stored, so its effect is a step from message to message.
      A callback that only logs or copies the message leaves it as it was. */
  type Effect = string -> Message -> Message

  /** The callback leaves every message as it found it. */
  ghost predicate Observer(f: Message -> Message) {
    forall x :: f(x) == x
  }

  /** The callback may touch the metadata but never the text. */
  ghost predicate KeepsContent(f: Message -> Message) {
    forall x :: f(x).content == x.content
  }

  /** `add_new_message_callback`: registration only appends. */
  function AddNewMessageCallback(reg: Registry, callback: string): (r: Registry)
    ensures |r.callbacks| == |reg.callbacks| + 1
    ensures r.callbacks[..|reg.callbacks|] == reg.callbacks && r.callbacks[|reg.callbacks|] == callback
  {
    Registry(reg.callbacks + [callback])
  }

  /** The shared message object after the callbacks `cbs` have run on it, in order. */
  function Pass(cbs: seq<string>, effect: Effect, m: Message): Message
    decreases |cbs|
  {
    if |cbs| == 0 then m else effect(cbs[|cbs| - 1])(Pass(cbs[..|cbs| - 1], effect, m))
  }

  /** What happens, in order, when a message is added: each callback is handed the message as
      it then stands, and the store receives it last. */
  datatype Event = Notified(callback: string, message: Message) | Stored(sessionId: string, message: Message)

  /** `_call_new_message_callbacks`: every registered callback, in registration order, on the
      same message object. Returns the events and the message the last callback left. */
  function CallNewMessageCallbacks(reg: Registry, effect: Effect, m: Message): (r: (seq<Event>, Message))
    ensures |r.0| == |reg.callbacks|
    ensures forall i :: 0 <= i < |r.0| ==> r.0[i].Notified? && r.0[i].callback == reg.callbacks[i]
    ensures |r.0| > 0 ==> r.0[0].message == m
    ensures forall i :: 0 < i < |r.0| ==> r.0[i].message == effect(reg.callbacks[i - 1])(r.0[i - 1].message)
    ensures |r.0| == 0 ==> r.1 == m
    ensures |r.0| > 0 ==> r.1 == effect(reg.callbacks[|r.0| - 1])(r.0[|r.0| - 1].message)
  {
    var cbs := reg.callbacks;
    assert forall i :: 0 < i <= |cbs| ==> cbs[..i][..i - 1] == cbs[..i - 1];
    assert cbs[..|cbs|] == cbs;
    (seq(|cbs|, i requires 0 <= i < |cbs| => Notified(cbs[i], Pass(cbs[..i], effect, m))), Pass(cbs, effect, m))
  }

  /** Registering a callback changes nothing for earlier callbacks; the new one is called last,
      on what the earlier ones left, and its effect is what remains. */
  lemma RegistrationOrder(reg: Registry, callback: string, effect: Effect, m: Message)
    ensures var before := CallNewMessageCallbacks(reg, effect, m);
            var after := CallNewMessageCallbacks(AddNewMessageCallback(reg, callback), effect, m);
            && after.0 == before.0 + [Notified(callback, before.1)]
            && after.1 == effect(callback)(before.1)
  {
    var before := CallNewMessageCallbacks(reg, effect, m);
    var after := CallNewMessageCallbacks(AddNewMessageCallback(reg, callback), effect, m);
    var n := |reg.callbacks|;
    assert |after.0| == n + 1;
    forall i | 0 <= i < n
      ensures after.0[i] == before.0[i]
    {
      PassPrefix(reg.callbacks, callback, effect, m, i);
    }
    assert after.0 == before.0 + [Notified(callback, before.1)];
  }

  /** The callbacks run on a prefix are not affected by a later registration. */
  lemma PassPrefix(cbs: seq<string>, callback: string, effect: Effect, m: Message, i: nat)
    requires i <= |cbs|
    ensures Pass((cbs + [callback])[..i], effect, m) == Pass(cbs[..i], effect, m)
  {
    assert (cbs + [callback])[..i] == cbs[..i];
  }

  /** The metadata replaced wholesale by a timestamp in milliseconds and an ISO date. */
  function Stamp(m: Message, millis: int, date: string): (r: Message)
    ensures r.kwargs == Kwargs(Some(millis), None, Some(date))
    ensures r.content == m.content && r.TypeTag() == m.TypeTag()
  {
    var k := Kwargs(Some(millis), None, Some(date));
    match m
    case HumanMessage(c, _) => HumanMessage(c, k)
    case AiMessage(c, calls, _) => AiMessage(c, calls, k)
    case ToolMessage(c, id, name, _) => ToolMessage(c, id, name, k)
    case SystemMessage(c, _) => SystemMessage(c, k)
  }

  /** The outcome of adding a message: the events, the database afterwards, and the caller's
      message object, which was stamped and handed to the callbacks in place. */
  datatype Added = Added(events: seq<Event>, db: AppHistory.Database, message: Message)

  /** `CustomMongoDBChatMessageHistory.add_message` on the instance for `sid`: the caller's
      message is stamped, every callback is handed it in turn, and then it is stored as the
      callbacks left it. */
  function AddMessage(reg: Registry, effect: Effect, db: AppHistory.Database, sid: string, m: Message,
                      millis: int, date: string): (r: Added)
    ensures |r.events| == |reg.callbacks| + 1
    ensures forall i :: 0 <= i < |reg.callbacks| ==>
              r.events[i] == Notified(reg.callbacks[i], Pass(reg.callbacks[..i], effect, Stamp(m, millis, date)))
    ensures r.message == Pass(reg.callbacks, effect, Stamp(m, millis, date))
    ensures r.events[|reg.callbacks|] == Stored(sid, r.message)
    ensures r.db == db[sid := (if sid in db then db[sid] else []) + [r.message]]
  {
    var stamped := Stamp(m, millis, date);
    var (events, left) := CallNewMessageCallbacks(reg, effect, stamped);
    Added(events + [Stored(sid, left)], db[sid := (if sid in db then db[sid] else []) + [left]], left)
  }

  /** Storing is the last thing that happens. The first callback is handed the freshly stamped
      message, each later one what its predecessor left, and the store what the last one
      left. */
  lemma NotifyBeforeStore(reg: Registry, effect: Effect, db: AppHistory.Database, sid: string, m: Message,
                          millis: int, date: string)
    ensures var a := AddMessage(reg, effect, db, sid, m, millis, date);
            var n := |reg.callbacks|;
            && a.events[n].Stored?
            && (forall i :: 0 <= i < n ==> a.events[i].Notified?)
            && (n > 0 ==> a.events[0].message == Stamp(m, millis, date))
            && (forall i :: 0 < i < n ==>
                  a.events[i].message == effect(reg.callbacks[i - 1])(a.events[i - 1].message))
            && (n > 0 ==> a.events[n].message == effect(reg.callbacks[n - 1])(a.events[n - 1].message))
  {
  }

  /** Callbacks that keep the text leave it as it was. */
  lemma {:induction false} PassKeepsContent(cbs: seq<string>, effect: Effect, m: Message)
    requires forall j :: 0 <= j < |cbs| ==> KeepsContent(effect(cbs[j]))
    ensures Pass(cbs, effect, m).content == m.content
    decreases |cbs|
  {
    if |cbs| > 0 {
      PassKeepsContent(cbs[..|cbs| - 1], effect, m);
    }
  }

  /** Callbacks that only observe leave the message as it was. */
  lemma {:induction false} PassObservers(cbs: seq<string>, effect: Effect, m: Message)
    requires forall j :: 0 <= j < |cbs| ==> Observer(effect(cbs[j]))
    ensures Pass(cbs, effect, m) == m
    decreases |cbs|
  {
    if |cbs| > 0 {
      PassObservers(cbs[..|cbs| - 1], effect, m);
    }
  }

  /** When every callback only observes, as the vector store's `add_message` does, each one is
      handed the stamped message, and that is what is stored and what the caller's object
      holds afterwards. */
  lemma ObserversSeeStamp(reg: Registry, effect: Effect, db: AppHistory.Database, sid: string, m: Message,
                          millis: int, date: string)
    requires forall j :: 0 <= j < |reg.callbacks| ==> Observer(effect(reg.callbacks[j]))
    ensures var a := AddMessage(reg, effect, db, sid, m, millis, date);
            && a.message == Stamp(m, millis, date)
            && forall i :: 0 <= i < |reg.callbacks| ==> a.events[i] == Notified(reg.callbacks[i], Stamp(m, millis, date))
  {
    PassObservers(reg.callbacks, effect, Stamp(m, millis, date));
    forall i | 0 <= i < |reg.callbacks|
      ensures Pass(reg.callbacks[..i], effect, Stamp(m, millis, date)) == Stamp(m, millis, date)
    {
      PassObservers(reg.callbacks[..i], effect, Stamp(m, millis, date));
    }
  }

  /** `ChatArchive.get_chat_messages` of this module: through the module's instance cache. */
  function GetChatMessages(c: Cache, db: AppHistory.Database, sid: string): (r: seq<Message>)
    ensures sid !in c.entries ==> r == []
    ensures sid in c.entries ==> r == AppHistory.Stored(db, c.entries[sid])
  {
    AppHistory.GetChatHistory(c, db, sid)
  }

  /** One archived session: its id and the first message of its history. */
  datatype SessionInfo = SessionInfo(sessionId: string, firstMessage: Message)

  /** `xs[:n]` with Python's slice rules: a negative bound counts from the end, and bounds past
      either end are clamped. */
  function SliceTo<T>(xs: seq<T>, n: int): (r: seq<T>)
    ensures r <= xs
    ensures 0 <= n ==> |r| == (if n < |xs| then n else |xs|)
    ensures n < 0 ==> |r| == (if |xs| + n < 0 then 0 else |xs| + n)
  {
    if 0 <= n then (if n < |xs| then xs[..n] else xs)
    else if |xs| + n < 0 then []
    else xs[..|xs| + n]
  }

  /** `get_archived_session_ids`: the sessions as the database lists them (newest first), cut to
      the limit when there is one. */
  function GetArchivedSessionIds(sessions: seq<SessionInfo>, limit: Option<int>): (r: seq<SessionInfo>)
    ensures limit.None? ==> r == sessions
    ensures limit.Some? && limit.value >= 0 ==>
              |r| == (if limit.value < |sessions| then limit.value else |sessions|)
    ensures r <= sessions
  {
    if limit.None? then sessions else SliceTo(sessions, limit.value)
  }

  /** A negative limit drops that many sessions from the end instead of returning none. */
  lemma NegativeLimitDropsFromEnd(sessions: seq<SessionInfo>, k: int)
    requires 0 < k <= |sessions|
    ensures GetArchivedSessionIds(sessions, Some(-k)) == sessions[..|sessions| - k]
  {
  }

  /** The vector store, reduced to the texts added to it. */
  datatype VectorStore = VectorStore(texts: seq<string>)

  /** `ChatVectorStore.add_message`: without embeddings nothing is added; with them, the
      message's content. */
  function VectorAddMessage(vs: VectorStore, hasEmbeddings: bool, m: Message): (r: VectorStore)
    ensures !hasEmbeddings ==> r == vs
    ensures hasEmbeddings ==> r.texts == vs.texts + [m.content]
  {
    if !hasEmbeddings then vs else VectorStore(vs.texts + [m.content])
  }

  /** The store after each message of `ms` has been announced to it, in order. */
  function VectorAddAll(vs: VectorStore, hasEmbeddings: bool, ms: seq<Message>): VectorStore
    decreases |ms|
  {
    if |ms| == 0 then vs else VectorAddAll(VectorAddMessage(vs, hasEmbeddings, ms[0]), hasEmbeddings, ms[1..])
  }

  /** The contents of a list of messages, in order. */
  function Contents(ms: seq<Message>): (r: seq<string>)
    ensures |r| == |ms|
    ensures forall i :: 0 <= i < |ms| ==> r[i] == ms[i].content
  {
    seq(|ms|, i requires 0 <= i < |ms| => ms[i].content)
  }

  /** With embeddings the store gains the messages' texts in the order they were announced;
      without them it never changes. */
  lemma {:induction false} VectorStoreMirrors(vs: VectorStore, hasEmbeddings: bool, ms: seq<Message>)
    ensures hasEmbeddings ==> VectorAddAll(vs, hasEmbeddings, ms).texts == vs.texts + Contents(ms)
    ensures !hasEmbeddings ==> VectorAddAll(vs, hasEmbeddings, ms) == vs
    decreases |ms|
  {
    if |ms| > 0 {
      VectorStoreMirrors(VectorAddMessage(vs, hasEmbeddings, ms[0]), hasEmbeddings, ms[1..]);
      assert Contents(ms) == [ms[0].content] + Contents(ms[1..]);
    }
  }

  /** A vector store registered as the `i`-th callback gains the text the caller passed,
      provided the callbacks before it leave the text alone: stamping changes only metadata. */
  lemma VectorSeesAddedText(reg: Registry, effect: Effect, db: AppHistory.Database, sid: string, m: Message,
                            millis: int, date: string, i: nat, vs: VectorStore)
    requires i < |reg.callbacks|
    requires forall j :: 0 <= j < i ==> KeepsContent(effect(reg.callbacks[j]))
    ensures var e := AddMessage(reg, effect, db, sid, m, millis, date).events[i];
            && e.Notified?
            && VectorAddMessage(vs, true, e.message).texts == vs.texts + [m.content]
  {
    PassKeepsContent(reg.callbacks[..i], effect, Stamp(m, millis, date));
  }
}
