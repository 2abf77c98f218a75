/** The chat archive over the graph's checkpoints: reading a session's messages out of its last
    checkpoint, listing sessions with the metadata of their first human message, newest first,
    and re-indexing every archived message into the vector store. The checkpoint saver is a map
    from thread id to its last checkpoint; the set of thread ids is an input, listed in the
    order the set yields them. */
module ChatArchive {
  import opened Wrappers
  import opened Messages

  /** A saved checkpoint: its optional "channel_values" dictionary. */
  datatype Checkpoint = Checkpoint(channelValues: Option<map<string, seq<Message>>>)

  type Checkpoints = map<string, Checkpoint>

  /** `get_chat_messages`: the "messages" channel of the session's last checkpoint; an empty
      list when there is no checkpoint, no channel values or no messages channel. */
  function GetChatMessages(cps: Checkpoints, sid: string): (r: seq<Message>)
    ensures sid !in cps ==> r == []
    ensures sid in cps && cps[sid].channelValues.None? ==> r == []
    ensures sid in cps && cps[sid].channelValues.Some? && "messages" !in cps[sid].channelValues.value ==> r == []
    ensures sid in cps && cps[sid].channelValues.Some? && "messages" in cps[sid].channelValues.value ==>
              r == cps[sid].channelValues.value["messages"]
  {
    if sid !in cps then []
    else if cps[sid].channelValues.None? then []
    else if "messages" !in cps[sid].channelValues.value then []
    else cps[sid].channelValues.value["messages"]
  }

  /** A checkpoint whose messages channel holds `ms`, as the graph saves it. */
  function Save(cps: Checkpoints, sid: string, channels: map<string, seq<Message>>, ms: seq<Message>): Checkpoints {
    cps[sid := Checkpoint(Some(channels["messages" := ms]))]
  }

  /** What a run saves is what the archive reads back, and other sessions read as before. */
  lemma SaveThenRead(cps: Checkpoints, sid: string, channels: map<string, seq<Message>>, ms: seq<Message>, other: string)
    requires other != sid
    ensures GetChatMessages(Save(cps, sid, channels, ms), sid) == ms
    ensures GetChatMessages(Save(cps, sid, channels, ms), other) == GetChatMessages(cps, other)
  {
  }

  predicate IsHuman(m: Message) {
    m.TypeTag() == "human"
  }

  /** `get_first_human_message`: the earliest human message, if any. */
  function FirstHumanMessage(ms: seq<Message>): (r: Option<Message>)
    ensures r.None? <==> forall i :: 0 <= i < |ms| ==> !IsHuman(ms[i])
    ensures r.Some? ==> exists k :: 0 <= k < |ms| && ms[k] == r.value && IsHuman(ms[k])
                                    && forall j :: 0 <= j < k ==> !IsHuman(ms[j])
  {
    if |ms| == 0 then None
    else if IsHuman(ms[0]) then Some(ms[0])
    else
      var rest := FirstHumanMessage(ms[1..]);
      assert forall i :: 1 <= i < |ms| ==> ms[i] == ms[1..][i - 1];
      if rest.Some? then
        var k :| 0 <= k < |ms[1..]| && ms[1..][k] == rest.value && IsHuman(ms[1..][k])
                 && forall j :: 0 <= j < k ==> !IsHuman(ms[1..][j]);
        assert ms[k + 1] == rest.value;
        rest
      else rest
  }

  /** One entry of the session list. */
  datatype SessionMeta = SessionMeta(sessionId: string, firstMessage: string, timestamp: int, time: string)

  const UnknownTime := "<Unknown time>"

  /** The metadata of a session: from its first human message when there is one, the
      defaults otherwise. */
  function Metadata(sid: string, ms: seq<Message>): (r: SessionMeta)
    ensures r.sessionId == sid
    ensures FirstHumanMessage(ms).None? ==> r == SessionMeta(sid, "", 0, UnknownTime)
    ensures FirstHumanMessage(ms).Some? ==>
              var m := FirstHumanMessage(ms).value;
              r == SessionMeta(sid, m.content, m.kwargs.timestamp.GetOr(0), m.kwargs.time.GetOr(UnknownTime))
  {
    match FirstHumanMessage(ms)
    case None => SessionMeta(sid, "", 0, UnknownTime)
    case Some(m) => SessionMeta(sid, m.content, m.kwargs.timestamp.GetOr(0), m.kwargs.time.GetOr(UnknownTime))
  }

  predicate SortedDesc(s: seq<SessionMeta>) {
    forall i, j :: 0 <= i < j < |s| ==> s[i].timestamp >= s[j].timestamp
  }

  /** Inserting before the first entry that is not newer, which keeps equal timestamps in
      their original order. */
  function Insert(x: SessionMeta, s: seq<SessionMeta>): (r: seq<SessionMeta>)
    requires SortedDesc(s)
    ensures SortedDesc(r)
    ensures multiset(r) == multiset(s) + multiset{x}
    ensures |r| > 0 && (r[0] == x || (|s| > 0 && r[0] == s[0]))
  {
    if |s| == 0 then [x]
    else if s[0].timestamp <= x.timestamp then [x] + s
    else
      var rest := Insert(x, s[1..]);
      assert s == [s[0]] + s[1..];
      [s[0]] + rest
  }

  /** `sort(key=timestamp, reverse=True)`. */
  function SortByTimestampDesc(xs: seq<SessionMeta>): (r: seq<SessionMeta>)
    ensures SortedDesc(r)
    ensures multiset(r) == multiset(xs)
  {
    if |xs| == 0 then []
    else
      assert xs == [xs[0]] + xs[1..];
      Insert(xs[0], SortByTimestampDesc(xs[1..]))
  }

  /** The metadata of each listed session, in listing order, before sorting. */
  function AllMetadata(ids: seq<string>, cps: Checkpoints): (r: seq<SessionMeta>)
    ensures |r| == |ids|
    ensures forall i :: 0 <= i < |ids| ==> r[i] == Metadata(ids[i], GetChatMessages(cps, ids[i]))
  {
    seq(|ids|, i requires 0 <= i < |ids| => Metadata(ids[i], GetChatMessages(cps, ids[i])))
  }

  /** `get_session_list`: one entry per session, newest first. */
  function GetSessionList(ids: seq<string>, cps: Checkpoints): (r: seq<SessionMeta>)
    ensures SortedDesc(r)
    ensures multiset(r) == multiset(AllMetadata(ids, cps))
  {
    SortByTimestampDesc(AllMetadata(ids, cps))
  }

  /** Every listed session has exactly its entry, and nothing else is listed. */
  lemma SessionListCoversSessions(ids: seq<string>, cps: Checkpoints)
    ensures |GetSessionList(ids, cps)| == |ids|
    ensures forall sid :: sid in ids ==> Metadata(sid, GetChatMessages(cps, sid)) in GetSessionList(ids, cps)
    ensures forall e :: e in GetSessionList(ids, cps) ==> e.sessionId in ids
  {
    var all := AllMetadata(ids, cps);
    var r := GetSessionList(ids, cps);
    assert |r| == |multiset(r)| == |multiset(all)| == |all|;
    forall sid | sid in ids
      ensures Metadata(sid, GetChatMessages(cps, sid)) in r
    {
      var i :| 0 <= i < |ids| && ids[i] == sid;
      assert all[i] in multiset(all);
    }
    forall e | e in r
      ensures e.sessionId in ids
    {
      assert e in multiset(all);
      var i :| 0 <= i < |all| && all[i] == e;
    }
  }

  /** One vector-store document: the message text and its metadata. */
  datatype Document = Document(text: string, metadata: Kwargs)

  function Documents(ms: seq<Message>): (r: seq<Document>)
    ensures |r| == |ms|
    ensures forall i :: 0 <= i < |ms| ==> r[i] == Document(ms[i].content, ms[i].kwargs)
  {
    seq(|ms|, i requires 0 <= i < |ms| => Document(ms[i].content, ms[i].kwargs))
  }

  /** The messages of the listed sessions, in listing order: the reference for re-indexing. */
  function AllMessages(sessions: seq<SessionMeta>, cps: Checkpoints): seq<Message> {
    if |sessions| == 0 then []
    else AllMessages(sessions[..|sessions| - 1], cps) + GetChatMessages(cps, sessions[|sessions| - 1].sessionId)
  }

  /** Adding one more session adds its messages' documents after the ones before. */
  lemma RefreshStep(sessions: seq<SessionMeta>, i: nat, cps: Checkpoints)
    requires i < |sessions|
    ensures Documents(AllMessages(sessions[..i + 1], cps))
            == Documents(AllMessages(sessions[..i], cps)) + Documents(GetChatMessages(cps, sessions[i].sessionId))
  {
    assert sessions[..i + 1][..i] == sessions[..i];
    var a := AllMessages(sessions[..i], cps);
    var b := GetChatMessages(cps, sessions[i].sessionId);
    assert AllMessages(sessions[..i + 1], cps) == a + b;
    assert Documents(a + b) == Documents(a) + Documents(b);
  }

  /** `ChatVectorStore.refresh`: the collection is emptied, then every session's messages are
      added in session-list order, sessions without messages skipped; the count returned is
      the number of messages added. */
  method Refresh(ids: seq<string>, cps: Checkpoints) returns (count: nat, index: seq<Document>)
    ensures index == Documents(AllMessages(GetSessionList(ids, cps), cps))
    ensures count == |AllMessages(GetSessionList(ids, cps), cps)| == |index|
  {
    var sessions := GetSessionList(ids, cps);
    index := [];
    count := 0;
    var i := 0;
    while i < |sessions|
      invariant 0 <= i <= |sessions|
      invariant index == Documents(AllMessages(sessions[..i], cps))
      invariant count == |index|
    {
      RefreshStep(sessions, i, cps);
      var messages := GetChatMessages(cps, sessions[i].sessionId);
      if |messages| == 0 {
        i := i + 1;
        continue;
      }
      count := count + |messages|;
      index := index + Documents(messages);
      i := i + 1;
    }
    assert sessions[..i] == sessions;
  }
}
