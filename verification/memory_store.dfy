/** The store kept in memory (session/sessiontest/memory.go), proved call by call
    against the same StoreModel. It drops what has ended only when it comes upon it,
    filters connections that have ended where the service's store drops them, keeps
    an index left empty, and writes a record's end only when the record is stored.
    Its one map is taken apart here by the prefixes of its keys. */
module MemoryStore {
  import opened StoreModel
  import opened StoreViews

  // An entry whose end is 0 never ends.
  predicate Live<T>(e: Timed<T>, now: Time) {
    e.expires == 0 || now < e.expires
  }

  predicate Ends<T>(m: map<Id, Timed<T>>) {
    forall k :: k in m ==> 0 < m[k].expires
  }

  /** Keeps v until its time has run out; `until` is when. */
  method Put<T>(m: map<Id, Timed<T>>, k: Id, v: T, ttl: Time, now: Time, ghost until: Time)
    returns (n: map<Id, Timed<T>>)
    requires 0 < now && 0 < ttl && until == now + ttl && Ends(m)
    ensures Ends(n) && Unexpired(n, now) == Unexpired(m, now)[k := Timed(v, until)]
  {
    var expires := 0;
    if 0 < ttl {
      expires := now + ttl;
    }
    PutUnexpired(m, k, v, expires, now);
    n := m[k := Timed(v, expires)];
  }

  /** Reads an entry; one that has ended is dropped, and with `del` any. */
  method Get<T>(m: map<Id, Timed<T>>, k: Id, del: bool, now: Time) returns (n: map<Id, Timed<T>>, v: Option<T>)
    requires Ends(m)
    ensures Ends(n) && forall j :: j in n ==> Same(m, n, j)
    ensures v == Lookup(Values(m, now), k)
    ensures Unexpired(n, now) == if del then Remove(Unexpired(m, now), k) else Unexpired(m, now)
    ensures Values(n, now) == if del then Remove(Values(m, now), k) else Values(m, now)
  {
    var found := k in m;
    n := m;
    RemoveUnexpired(m, k, now);
    RemoveValues(m, k, now);
    if found && !Live(m[k], now) {
      n := Remove(n, k);
      found := false;
    }
    if found && del {
      n := Remove(n, k);
    }
    v := if found then Some(m[k].value) else None;
  }

  // A session is kept to the end on its record.
  ghost predicate ToItsEnd(m: map<Id, Timed<Session>>) {
    Ends(m) && forall k :: k in m ==> m[k].expires == m[k].value.expiresAt
  }

  method Keep(m: map<Id, Timed<Session>>, sid: Id, sess: Session, now: Time) returns (n: map<Id, Timed<Session>>)
    requires 0 < now < sess.expiresAt && ToItsEnd(m)
    ensures ToItsEnd(n) && Values(n, now) == Values(m, now)[sid := sess]
  {
    PutValues(m, sid, sess, sess.expiresAt, now);
    n := m[sid := Timed(sess, sess.expiresAt)];
  }

  class Memory {
    var now: Time
    var flows: map<Id, Timed<Flow>>
    var codes: map<Id, Timed<AppCode>>
    var sessions: map<Id, Timed<Session>>
    var refresh: map<Id, Timed<RefreshGrant>>
    var shared: map<Id, Timed<Shared>>
    var apps: map<Id, Timed<map<string, Id>>>
    var indexes: map<IndexKey, Index>

    /** Every entry ends, a session's and a shared session's when its record does; and
        no connection outlives its index's key. */
    ghost predicate Valid()
      reads this
    {
      && 0 < now && Ends(flows) && Ends(codes) && ToItsEnd(sessions) && Ends(refresh) && Ends(shared) && Ends(apps)
      && (forall k :: k in shared ==> shared[k].expires == shared[k].value.expiresAt)
      && (forall k :: k in indexes ==> 0 < indexes[k].expires && Covers(indexes[k]))
    }

    /** What it shows: the entries still living. */
    ghost function View(): State
      reads this
    {
      State(Unexpired(flows, now), Unexpired(codes, now), Values(sessions, now), Unexpired(refresh, now),
            Values(shared, now), Unexpired(apps, now), Lines(indexes, now))
    }

    constructor (start: Time)
      requires 0 < start
      ensures Valid() && now == start && View() == EMPTY
    {
      now := start;
      flows, codes, sessions, refresh, shared, apps, indexes := map[], map[], map[], map[], map[], map[], map[];
    }

    /** Time goes on; or is set back, by a test, which shows again what is still kept. */
    method SetClock(time: Time)
      requires Valid() && 0 < time
      modifies this`now
      ensures Valid() && now == time && (old(now) <= time ==> View() == Age(old(View()), time))
    {
      if now <= time {
        AgedUnexpired(flows, now, time);
        AgedUnexpired(codes, now, time);
        AgedSessions(sessions, now, time);
        AgedUnexpired(refresh, now, time);
        AgedShared(shared, now, time);
        AgedUnexpired(apps, now, time);
        AgedLines(indexes, now, time);
      }
      now := time;
    }

    method SaveFlow(id: Id, flow: Flow, ttl: Time)
      requires Valid() && 0 < ttl
      modifies this
      ensures Valid() && now == old(now) && View() == StoreModel.SaveFlow(old(View()), now, id, flow, ttl)
    {
      var until := now + ttl;
      FlowSaved(View(), now, id, flow, ttl, until);
      flows := Put(flows, id, flow, ttl, now, until);
      assert View() == old(View()).(flows := old(View()).flows[id := Timed(flow, until)]);
    }

    method ConsumeFlow(id: Id) returns (flow: Option<Flow>)
      requires Valid()
      modifies this
      ensures Valid() && now == old(now) && (View(), flow) == StoreModel.ConsumeFlow(old(View()), id)
    {
      RemoveUnexpired(flows, id, now);
      flows, flow := Get(flows, id, true, now);
    }

    method SaveAppCode(id: Id, code: AppCode, ttl: Time)
      requires Valid() && 0 < ttl
      modifies this
      ensures Valid() && now == old(now) && View() == StoreModel.SaveAppCode(old(View()), now, id, code, ttl)
    {
      var until := now + ttl;
      CodeSaved(View(), now, id, code, ttl, until);
      codes := Put(codes, id, code, ttl, now, until);
      assert View() == old(View()).(codes := old(View()).codes[id := Timed(code, until)]);
    }

    method ConsumeAppCode(id: Id) returns (code: Option<AppCode>)
      requires Valid()
      modifies this
      ensures Valid() && now == old(now) && (View(), code) == StoreModel.ConsumeAppCode(old(View()), id)
    {
      RemoveUnexpired(codes, id, now);
      codes, code := Get(codes, id, true, now);
    }

    /** Never over a session that exists. The record the caller holds is given its
        new end only when it is stored. */
    method CreateSession(sid: Id, sess: Session, lifetime: Time) returns (added: bool, record: Session)
      requires Valid() && 0 < lifetime
      modifies this
      ensures Valid() && now == old(now)
      ensures (View(), added) == StoreModel.CreateSession(old(View()), now, sid, sess, lifetime)
      ensures record == if added then sess.(expiresAt := now + lifetime) else sess
    {
      record := sess;
      added := !(sid in sessions && Live(sessions[sid], now));
      if added {
        record := sess.(expiresAt := now + lifetime);
        sessions := Keep(sessions, sid, record, now);
      }
    }

    method ReplaceSession(sid: Id, sess: Session) returns (ok: bool)
      requires Valid()
      modifies this
      ensures Valid() && now == old(now)
      ensures (View(), ok) == StoreModel.ReplaceSession(old(View()), now, sid, sess)
    {
      if sid !in sessions || !Live(sessions[sid], now) || sess.expiresAt == 0 || sess.expiresAt <= now {
        return false;
      }
      sessions := Keep(sessions, sid, sess, now);
      return true;
    }

    method LoadSession(sid: Id) returns (sess: Option<Session>)
      requires Valid()
      modifies this
      ensures Valid() && now == old(now) && View() == old(View()) && sess == StoreModel.LoadSession(View(), sid)
    {
      sessions, sess := Get(sessions, sid, false, now);
      if sess.Some? && (sess.value.expiresAt == 0 || sess.value.expiresAt <= now) {
        sess := None;
      }
    }

    method DeleteSession(sid: Id)
      requires Valid()
      modifies this
      ensures Valid() && now == old(now) && View() == StoreModel.DeleteSession(old(View()), sid)
    {
      RemoveValues(sessions, sid, now);
      sessions := Remove(sessions, sid);
    }

    method SaveRefresh(key: Id, g: RefreshGrant, expiresAt: Time) returns (ok: bool)
      requires Valid()
      modifies this
      ensures Valid() && now == old(now)
      ensures (View(), ok) == StoreModel.SaveRefresh(old(View()), now, key, g, expiresAt)
    {
      var ttl := expiresAt - now;
      if ttl <= 0 {
        return false;
      }
      refresh := Put(refresh, key, g, ttl, now, expiresAt);
      return true;
    }

    method LoadRefresh(key: Id) returns (g: Option<RefreshGrant>)
      requires Valid()
      modifies this
      ensures Valid() && now == old(now) && View() == old(View()) && g == StoreModel.LoadRefresh(View(), key)
    {
      refresh, g := Get(refresh, key, false, now);
    }

    method TakeRefresh(key: Id) returns (g: Option<RefreshGrant>)
      requires Valid()
      modifies this
      ensures Valid() && now == old(now) && (View(), g) == StoreModel.TakeRefresh(old(View()), key)
    {
      RemoveUnexpired(refresh, key, now);
      refresh, g := Get(refresh, key, true, now);
    }

    method DeleteRefresh(key: Id)
      requires Valid()
      modifies this
      ensures Valid() && now == old(now) && View() == StoreModel.DeleteRefresh(old(View()), key)
    {
      RemoveUnexpired(refresh, key, now);
      refresh := Remove(refresh, key);
    }

    method CreateShared(id: Id, sh: Shared) returns (answer: CreateAnswer)
      requires Valid()
      modifies this
      ensures Valid() && now == old(now)
      ensures (View(), answer) == StoreModel.CreateShared(old(View()), now, id, sh)
    {
      if sh.expiresAt == 0 || sh.expiresAt <= now {
        return AlreadyEnded;
      }
      if id in shared && Live(shared[id], now) {
        return Exists;
      }
      PutValues(shared, id, sh, sh.expiresAt, now);
      shared := shared[id := Timed(sh, sh.expiresAt)];
      assert Values(shared, now) == Values(old(shared), now)[id := sh];
      return Created;
    }

    method ReplaceShared(id: Id, sh: Shared) returns (ok: bool)
      requires Valid()
      modifies this
      ensures Valid() && now == old(now)
      ensures (View(), ok) == StoreModel.ReplaceShared(old(View()), now, id, sh)
    {
      if id !in shared || !Live(shared[id], now) || sh.expiresAt == 0 || sh.expiresAt <= now {
        return false;
      }
      PutValues(shared, id, sh, sh.expiresAt, now);
      shared := shared[id := Timed(sh, sh.expiresAt)];
      assert Values(shared, now) == Values(old(shared), now)[id := sh];
      return true;
    }

    method LoadShared(id: Id) returns (sh: Option<Shared>)
      requires Valid()
      modifies this
      ensures Valid() && now == old(now) && View() == old(View()) && sh == StoreModel.LoadShared(View(), id)
    {
      shared, sh := Get(shared, id, false, now);
      if sh.Some? && (sh.value.expiresAt == 0 || sh.value.expiresAt <= now) {
        sh := None;
      }
    }

    method PutSharedApp(id: Id, client: string, sid: Id, until: Time) returns (previous: Option<Id>)
      requires Valid()
      modifies this
      ensures Valid() && now == old(now)
      ensures (View(), previous) == StoreModel.PutSharedApp(old(View()), now, id, client, sid, until)
    {
      if until <= now {
        return None;
      }
      var list: map<string, Id> := map[];
      if id in apps && Live(apps[id], now) {
        list := apps[id].value;
      }
      previous := Some(if client in list then list[client] else 0);
      list := list[client := sid];
      PutUnexpired(apps, id, list, until, now);
      apps := apps[id := Timed(list, until)];
      assert Unexpired(apps, now) == Unexpired(old(apps), now)[id := Timed(list, until)];
    }

    method SharedApps(id: Id) returns (list: map<string, Id>)
      requires Valid()
      modifies this
      ensures Valid() && now == old(now) && View() == old(View()) && list == StoreModel.SharedApps(View(), id)
    {
      var found: Option<map<string, Id>>;
      apps, found := Get(apps, id, false, now);
      list := if found.Some? then found.value else map[];
    }

    /** The record is dropped, living or not; the list with it only if it was living. */
    method EndShared(id: Id) returns (list: Option<map<string, Id>>)
      requires Valid()
      modifies this
      ensures Valid() && now == old(now)
      ensures var (dropped, removed) := DropShared(old(View()), id);
              var (taken, apps) := TakeSharedApps(dropped, id);
              if removed then View() == taken && list == Some(apps) else View() == dropped && list == None
    {
      var living := id in shared && Live(shared[id], now);
      RemoveValues(shared, id, now);
      shared := Remove(shared, id);
      if !living {
        return None;
      }
      var found: map<string, Id> := map[];
      if id in apps && Live(apps[id], now) {
        found := apps[id].value;
      }
      RemoveUnexpired(apps, id, now);
      apps := Remove(apps, id);
      return Some(found);
    }

    // The connections of an index's living entry.
    function Kept(key: IndexKey): map<Connection, Time>
      reads this
    {
      if key in indexes && (indexes[key].expires == 0 || now < indexes[key].expires) then indexes[key].ends else map[]
    }

    method AddConnection(key: IndexKey, c: Connection, until: Time) returns (ok: bool)
      requires Valid()
      modifies this
      ensures Valid() && now == old(now)
      ensures (View(), ok) == StoreModel.AddConnection(old(View()), now, key, c, until)
    {
      if until <= now {
        return false;
      }
      var ends := Kept(key)[c := until];
      var expires := until;
      if key in indexes && now < indexes[key].expires && until < indexes[key].expires {
        expires := indexes[key].expires;
      }
      AddLine(indexes, now, key, c, until, expires);
      indexes := indexes[key := Index(ends, expires)];
      assert Lines(indexes, now) == Lines(old(indexes), now)[(key, c) := until];
      return true;
    }

    /** Walks the index in the map's own order, passing over what has ended. */
    method Connections(key: IndexKey) returns (lines: set<Connection>)
      requires Valid()
      ensures lines == StoreModel.Connections(View(), key)
    {
      var ends := Kept(key);
      var rest := ends.Keys;
      lines := {};
      while rest != {}
        invariant rest <= ends.Keys
        invariant forall c :: c in lines <==> c in ends && c !in rest && now < ends[c]
      {
        var c :| c in rest;
        rest := rest - {c};
        if ends[c] <= now {
          continue;
        }
        lines := lines + {c};
      }
      assert lines == set c | c in ends && now < ends[c];
      ConnectionsShown(View(), indexes, now, key);
    }

    /** An index left empty stays, with its end. */
    method RemoveConnection(key: IndexKey, c: Connection)
      requires Valid()
      modifies this
      ensures Valid() && now == old(now)
      ensures View() == StoreModel.RemoveConnection(old(View()), key, c)
    {
      if c !in Kept(key) {
        assert !Stands(indexes, now, (key, c));
        return;
      }
      DropLine(indexes, now, key, c);
      indexes := indexes[key := Index(Remove(indexes[key].ends, c), indexes[key].expires)];
    }
  }
}
