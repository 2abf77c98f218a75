/** The get-or-create cache of chat-history instances that both history modules keep: a
    dictionary from session id to the instance created for it. An instance is known by the
    session it serves and its creation serial, so "the same instance" is observable. */
module HistoryCache {

  datatype Instance = Instance(sessionId: string, serial: nat)

  /** The dictionary, and how many instances have been created so far. */
  datatype Cache = Cache(entries: map<string, Instance>, created: nat)

  const Empty := Cache(map[], 0)

  /** Every cached instance serves its own key and was created before now, and no two keys
      share an instance. */
  predicate Valid(c: Cache) {
    && (forall sid :: sid in c.entries ==> c.entries[sid].sessionId == sid && c.entries[sid].serial < c.created)
    && (forall a, b :: a in c.entries && b in c.entries && a != b ==> c.entries[a].serial != c.entries[b].serial)
  }

  datatype Provided = Provided(instance: Instance, cache: Cache)

  /** `_provide_history_instance`: the cached instance on a hit; on a miss a new instance is
      created and stored. */
  function Provide(c: Cache, sid: string): (r: Provided)
    ensures sid in c.entries ==> r == Provided(c.entries[sid], c)
    ensures sid !in c.entries ==> r.cache.created == c.created + 1 && r.instance == Instance(sid, c.created)
    ensures r.cache.entries == c.entries[sid := r.instance]
    ensures forall other :: other != sid ==>
              (other in r.cache.entries <==> other in c.entries)
              && (other in c.entries ==> r.cache.entries[other] == c.entries[other])
  {
    if sid in c.entries then Provided(c.entries[sid], c)
    else
      var inst := Instance(sid, c.created);
      Provided(inst, Cache(c.entries[sid := inst], c.created + 1))
  }

  /** Providing keeps the cache valid, and the instance provided serves the requested session. */
  lemma ProvideKeepsValid(c: Cache, sid: string)
    requires Valid(c)
    ensures Valid(Provide(c, sid).cache)
    ensures Provide(c, sid).instance.sessionId == sid
  {
  }

  /** A second provide for the same session returns the same instance and creates nothing. */
  lemma ProvideTwice(c: Cache, sid: string)
    ensures var first := Provide(c, sid);
            Provide(first.cache, sid) == first
  {
  }

  /** Two different sessions are never served by the same instance. */
  lemma DistinctSessionsDistinctInstances(c: Cache, a: string, b: string)
    requires Valid(c)
    requires a != b
    ensures var p := Provide(c, a);
            var q := Provide(p.cache, b);
            p.instance != q.instance && Valid(q.cache)
  {
    ProvideKeepsValid(c, a);
    ProvideKeepsValid(Provide(c, a).cache, b);
  }
}
