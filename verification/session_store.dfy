/** The store the service runs on (session/store.go), over a cache whose every entry
    has a life of its own, and proved call by call against StoreModel. */
module SessionStore {
  import opened StoreModel
  import opened StoreViews

  class Store {
    var now: Time
    var flows: map<Id, Timed<Flow>>
    var codes: map<Id, Timed<AppCode>>
    var sessions: map<Id, Timed<Session>>
    var refresh: map<Id, Timed<RefreshGrant>>
    var shared: map<Id, Timed<Shared>>
    var apps: map<Id, Timed<map<string, Id>>>
    var indexes: map<IndexKey, Index>

    /** A session's and a shared session's entry lives to the end on its record; an
        index's key lives at least as long as any of its connections, and an index
        with none is not there. */
    ghost predicate Valid()
      reads this
    {
      && 0 < now
      && (forall k :: k in sessions ==> sessions[k].expires == sessions[k].value.expiresAt)
      && (forall k :: k in shared ==> shared[k].expires == shared[k].value.expiresAt)
      && (forall k :: k in indexes ==> indexes[k].ends != map[] && Covers(indexes[k]))
    }

    /** What it shows: the entries still living. */
    ghost function View(): State
      reads this
    {
      State(Unexpired(flows, now), Unexpired(codes, now), Values(sessions, now), Unexpired(refresh, now),
            Values(shared, now), Unexpired(apps, now), Lines(indexes, now))
    }

    constructor (start: Time)
      requires 0 < start
      ensures Valid() && now == start && View() == EMPTY
    {
      now := start;
      flows, codes, sessions, refresh, shared, apps, indexes := map[], map[], map[], map[], map[], map[], map[];
    }

    /** Time goes on; the cache drops what has ended. */
    method SetClock(time: Time)
      requires Valid() && now <= time
      modifies this
      ensures Valid() && now == time && View() == Age(old(View()), time)
    {
      AgedUnexpired(flows, now, time);
      AgedUnexpired(codes, now, time);
      AgedSessions(sessions, now, time);
      AgedUnexpired(refresh, now, time);
      AgedShared(shared, now, time);
      AgedUnexpired(apps, now, time);
      AgedLines(indexes, now, time);
      now := time;
    }

    method SaveFlow(id: Id, flow: Flow, ttl: Time)
      requires Valid() && 0 < ttl
      modifies this
      ensures Valid() && now == old(now) && View() == StoreModel.SaveFlow(old(View()), now, id, flow, ttl)
    {
      var expires := now + ttl;
      PutUnexpired(flows, id, flow, expires, now);
      flows := flows[id := Timed(flow, expires)];
      FlowSaved(old(View()), now, id, flow, ttl, expires);
    }

    method ConsumeFlow(id: Id) returns (flow: Option<Flow>)
      requires Valid()
      modifies this
      ensures Valid() && now == old(now) && (View(), flow) == StoreModel.ConsumeFlow(old(View()), id)
    {
      flow := if Living(flows, id, now) then Some(flows[id].value) else None;
      RemoveUnexpired(flows, id, now);
      flows := Remove(flows, id);
    }

    method SaveAppCode(id: Id, code: AppCode, ttl: Time)
      requires Valid() && 0 < ttl
      modifies this
      ensures Valid() && now == old(now) && View() == StoreModel.SaveAppCode(old(View()), now, id, code, ttl)
    {
      var expires := now + ttl;
      PutUnexpired(codes, id, code, expires, now);
      codes := codes[id := Timed(code, expires)];
      CodeSaved(old(View()), now, id, code, ttl, expires);
    }

    method ConsumeAppCode(id: Id) returns (code: Option<AppCode>)
      requires Valid()
      modifies this
      ensures Valid() && now == old(now) && (View(), code) == StoreModel.ConsumeAppCode(old(View()), id)
    {
      code := if Living(codes, id, now) then Some(codes[id].value) else None;
      RemoveUnexpired(codes, id, now);
      codes := Remove(codes, id);
    }

    /** Never over a session that exists. The record the caller holds is given its
        new end even when it is refused. */
    method CreateSession(sid: Id, sess: Session, lifetime: Time) returns (added: bool, record: Session)
      requires Valid() && 0 < lifetime
      modifies this
      ensures Valid() && now == old(now)
      ensures (View(), added) == StoreModel.CreateSession(old(View()), now, sid, sess, lifetime)
      ensures record == sess.(expiresAt := now + lifetime)
    {
      var expires := now + lifetime;
      record := sess.(expiresAt := expires);
      added := !Living(sessions, sid, now);
      if added {
        SessionCreated(View(), now, sid, sess, lifetime, expires);
        PutValues(sessions, sid, record, expires, now);
        sessions := sessions[sid := Timed(record, expires)];
        assert Values(sessions, now) == Values(old(sessions), now)[sid := record];
      }
    }

    method ReplaceSession(sid: Id, sess: Session) returns (ok: bool)
      requires Valid()
      modifies this
      ensures Valid() && now == old(now)
      ensures (View(), ok) == StoreModel.ReplaceSession(old(View()), now, sid, sess)
    {
      var left := sess.expiresAt - now;
      if sess.expiresAt == 0 || left <= 0 {
        return false;
      }
      ok := Living(sessions, sid, now);
      if ok {
        var expires := now + left;
        PutValues(sessions, sid, sess, expires, now);
        sessions := sessions[sid := Timed(sess, expires)];
        assert Values(sessions, now) == Values(old(sessions), now)[sid := sess];
      }
    }

    method LoadSession(sid: Id) returns (sess: Option<Session>)
      requires Valid()
      ensures sess == StoreModel.LoadSession(View(), sid)
    {
      if !Living(sessions, sid, now) {
        return None;
      }
      var found := sessions[sid].value;
      if found.expiresAt == 0 || found.expiresAt <= now {
        return None;
      }
      return Some(found);
    }

    method DeleteSession(sid: Id)
      requires Valid()
      modifies this
      ensures Valid() && now == old(now) && View() == StoreModel.DeleteSession(old(View()), sid)
    {
      RemoveValues(sessions, sid, now);
      sessions := Remove(sessions, sid);
    }

    method SaveRefresh(key: Id, g: RefreshGrant, expiresAt: Time) returns (ok: bool)
      requires Valid()
      modifies this
      ensures Valid() && now == old(now)
      ensures (View(), ok) == StoreModel.SaveRefresh(old(View()), now, key, g, expiresAt)
    {
      var left := expiresAt - now;
      if left <= 0 {
        return false;
      }
      var expires := now + left;
      assert expires == expiresAt;
      PutUnexpired(refresh, key, g, expires, now);
      refresh := refresh[key := Timed(g, expires)];
      assert Unexpired(refresh, now) == Unexpired(old(refresh), now)[key := Timed(g, expires)];
      return true;
    }

    method LoadRefresh(key: Id) returns (g: Option<RefreshGrant>)
      requires Valid()
      ensures g == StoreModel.LoadRefresh(View(), key)
    {
      g := if Living(refresh, key, now) then Some(refresh[key].value) else None;
    }

    method TakeRefresh(key: Id) returns (g: Option<RefreshGrant>)
      requires Valid()
      modifies this
      ensures Valid() && now == old(now) && (View(), g) == StoreModel.TakeRefresh(old(View()), key)
    {
      g := if Living(refresh, key, now) then Some(refresh[key].value) else None;
      RemoveUnexpired(refresh, key, now);
      refresh := Remove(refresh, key);
    }

    method DeleteRefresh(key: Id)
      requires Valid()
      modifies this
      ensures Valid() && now == old(now) && View() == StoreModel.DeleteRefresh(old(View()), key)
    {
      RemoveUnexpired(refresh, key, now);
      refresh := Remove(refresh, key);
    }

    method CreateShared(id: Id, sh: Shared) returns (answer: CreateAnswer)
      requires Valid()
      modifies this
      ensures Valid() && now == old(now)
      ensures (View(), answer) == StoreModel.CreateShared(old(View()), now, id, sh)
    {
      var left := sh.expiresAt - now;
      if left <= 0 {
        return AlreadyEnded;
      }
      if Living(shared, id, now) {
        return Exists;
      }
      var expires := now + left;
      PutValues(shared, id, sh, expires, now);
      shared := shared[id := Timed(sh, expires)];
      assert Values(shared, now) == Values(old(shared), now)[id := sh];
      return Created;
    }

    method ReplaceShared(id: Id, sh: Shared) returns (ok: bool)
      requires Valid()
      modifies this
      ensures Valid() && now == old(now)
      ensures (View(), ok) == StoreModel.ReplaceShared(old(View()), now, id, sh)
    {
      var left := sh.expiresAt - now;
      if left <= 0 {
        return false;
      }
      ok := Living(shared, id, now);
      if ok {
        var expires := now + left;
        PutValues(shared, id, sh, expires, now);
        shared := shared[id := Timed(sh, expires)];
        assert Values(shared, now) == Values(old(shared), now)[id := sh];
      }
    }

    method LoadShared(id: Id) returns (sh: Option<Shared>)
      requires Valid()
      ensures sh == StoreModel.LoadShared(View(), id)
    {
      if !Living(shared, id, now) {
        return None;
      }
      var found := shared[id].value;
      if found.expiresAt == 0 || found.expiresAt <= now {
        return None;
      }
      return Some(found);
    }

    /** HGET, HSET and PEXPIRE in one step: the list's end becomes `until`. */
    method PutSharedApp(id: Id, client: string, sid: Id, until: Time) returns (previous: Option<Id>)
      requires Valid()
      modifies this
      ensures Valid() && now == old(now)
      ensures (View(), previous) == StoreModel.PutSharedApp(old(View()), now, id, client, sid, until)
    {
      var left := until - now;
      if left <= 0 {
        return None;
      }
      var list: map<string, Id> := if Living(apps, id, now) then apps[id].value else map[];
      previous := Some(if client in list then list[client] else 0);
      list := list[client := sid];
      var expires := now + left;
      assert expires == until;
      PutUnexpired(apps, id, list, expires, now);
      apps := apps[id := Timed(list, expires)];
      assert Unexpired(apps, now) == Unexpired(old(apps), now)[id := Timed(list, expires)];
    }

    method SharedApps(id: Id) returns (list: map<string, Id>)
      requires Valid()
      ensures list == StoreModel.SharedApps(View(), id)
    {
      list := if Living(apps, id, now) then apps[id].value else map[];
    }

    /** DEL of the record, then HGETALL and DEL of its list. */
    method EndShared(id: Id) returns (list: Option<map<string, Id>>)
      requires Valid()
      modifies this
      ensures Valid() && now == old(now)
      ensures var (dropped, removed) := DropShared(old(View()), id);
              var (taken, apps) := TakeSharedApps(dropped, id);
              if removed then View() == taken && list == Some(apps) else View() == dropped && list == None
    {
      var removed := Living(shared, id, now);
      RemoveValues(shared, id, now);
      shared := Remove(shared, id);
      if !removed {
        return None;
      }
      list := Some(if Living(apps, id, now) then apps[id].value else map[]);
      RemoveUnexpired(apps, id, now);
      apps := Remove(apps, id);
    }

    /** ZADD; and the key's life is only ever made longer. */
    method AddConnection(key: IndexKey, c: Connection, until: Time) returns (ok: bool)
      requires Valid()
      modifies this
      ensures Valid() && now == old(now)
      ensures (View(), ok) == StoreModel.AddConnection(old(View()), now, key, c, until)
    {
      var left := until - now;
      if left <= 0 {
        return false;
      }
      indexes := Added(indexes, now, key, c, until, left);
      return true;
    }

    // The script: the line scored by its end, the key's own life stretched to it.
    static method Added(m: map<IndexKey, Index>, now: Time, key: IndexKey, c: Connection, until: Time, left: Time)
      returns (n: map<IndexKey, Index>)
      requires 0 < left == until - now && forall k :: k in m ==> m[k].ends != map[] && Covers(m[k])
      ensures Lines(n, now) == Lines(m, now)[(key, c) := until]
      ensures forall k :: k in n ==> n[k].ends != map[] && Covers(n[k])
    {
      var living := key in m && now < m[key].expires;
      var ends := if living then m[key].ends else map[];
      var t := if living then m[key].expires - now else -1;
      var expires := if t < left then now + left else m[key].expires;
      AddLine(m, now, key, c, until, expires);
      n := m[key := Index(ends[c := until], expires)];
    }

    /** ZREMRANGEBYSCORE up to now; an index left empty is gone. */
    method DropEndedLines(key: IndexKey)
      requires Valid() && key in indexes && now < indexes[key].expires
      modifies this
      ensures Valid() && now == old(now) && View() == old(View())
      ensures indexes == WithEnds(old(indexes), key, LeftAt(old(indexes)[key], now), old(indexes)[key].expires)
    {
      var left := LeftAt(indexes[key], now);
      var expires := indexes[key].expires;
      DropEnded(indexes, now, key, left, expires);
      indexes := WithEnds(indexes, key, left, expires);
    }

    /** Drops what has ended, and answers what is left, in one step. */
    method Connections(key: IndexKey) returns (lines: set<Connection>)
      requires Valid()
      modifies this
      ensures Valid() && now == old(now)
      ensures View() == old(View()) && lines == StoreModel.Connections(old(View()), key)
    {
      ConnectionsShown(View(), indexes, now, key);
      if key in indexes && now < indexes[key].expires {
        LeftIsLiving(indexes, now, key);
        DropEndedLines(key);
      }
      lines := LivingEnds(indexes, key, now).Keys;
    }

    /** ZREM: an index left empty is gone. */
    method RemoveConnection(key: IndexKey, c: Connection)
      requires Valid()
      modifies this
      ensures Valid() && now == old(now)
      ensures View() == StoreModel.RemoveConnection(old(View()), key, c)
    {
      assert !(key in indexes && now < indexes[key].expires) ==> !Stands(indexes, now, (key, c));
      if key in indexes && now < indexes[key].expires {
        RemoveLine(indexes, now, key, c, indexes[key].expires);
        indexes := WithEnds(indexes, key, Remove(indexes[key].ends, c), indexes[key].expires);
      }
    }
  }
}
