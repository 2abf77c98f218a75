/** The application's `ChatHistory` object: its instance cache, and reading a session's messages
    through it. A history instance reads its messages from the database; the database is a map
    from session id to the stored messages. */
module AppHistory {
  import opened Messages
  import opened HistoryCache

  type Database = map<string, seq<Message>>

  /** The messages a history instance reads for its session. */
  function Stored(db: Database, inst: Instance): seq<Message> {
    if inst.sessionId in db then db[inst.sessionId] else []
  }

  /** `ChatHistory.get_chat_history`: an uncached session reads as empty, whatever the database
      holds; a cached one reads through its instance. */
  function GetChatHistory(c: Cache, db: Database, sid: string): (r: seq<Message>)
    ensures sid !in c.entries ==> r == []
    ensures sid in c.entries ==> r == Stored(db, c.entries[sid])
  {
    if sid !in c.entries then [] else Stored(db, c.entries[sid])
  }

  /** Once a session has been provided, its history reads what the database stores for it. */
  lemma ProvideThenRead(c: Cache, db: Database, sid: string)
    requires Valid(c)
    ensures GetChatHistory(Provide(c, sid).cache, db, sid) == (if sid in db then db[sid] else [])
  {
  }

  /** Before that, a session with stored messages still reads as empty. */
  lemma UnprovidedReadsEmpty(c: Cache, db: Database, sid: string)
    requires sid !in c.entries && sid in db && |db[sid]| > 0
    ensures GetChatHistory(c, db, sid) != db[sid]
  {
  }
}
