/** Handlers that walk what the store answered and end what they find, run over the
    service's store with nothing in between (routes/connections.go, routes/aiapp.go,
    routes/shared.go). What is in between is the state machines' matter. */
module Handlers {
  import opened StoreModel
  import opened SessionStore

  // What a walk leaves alone: everything but the named sessions, refresh grants and
  // lines of one index.
  ghost predicate OnlyEnds(s: State, t: State, sids: set<Id>, key: IndexKey) {
    && t.flows == s.flows && t.codes == s.codes && t.shared == s.shared && t.apps == s.apps
    && (forall k :: k in t.sessions ==> Same(s.sessions, t.sessions, k))
    && (forall k :: k in s.sessions && k !in sids ==> k in t.sessions)
    && (forall k :: k in t.refresh ==> Same(s.refresh, t.refresh, k))
    && (forall l :: l in t.index ==> Same(s.index, t.index, l))
    && (forall l :: l in s.index && l.0 != key ==> l in t.index)
  }

  // The refresh grants of an ended connection: its own and those named.
  function WithoutGrants(st: State, keys: seq<Id>): State {
    if keys == [] then st
    else
      var rest := WithoutGrants(st, keys[..|keys| - 1]);
      if keys[|keys| - 1] == 0 then rest else DeleteRefresh(rest, keys[|keys| - 1])
  }

  lemma {:induction false} GrantsGone(st: State, keys: seq<Id>)
    ensures var t := WithoutGrants(st, keys);
            && t == st.(refresh := t.refresh)
            && (forall k :: k in t.refresh <==> k in st.refresh && (k == 0 || k !in keys))
            && (forall k :: k in t.refresh ==> t.refresh[k] == st.refresh[k])
  {
    if keys != [] {
      GrantsGone(st, keys[..|keys| - 1]);
      assert keys == keys[..|keys| - 1] + [keys[|keys| - 1]];
    }
  }

  function EndedConnection(st: State, sid: Id, sess: Session, keys: seq<Id>): State {
    var t := WithoutGrants(DeleteSession(st, sid), [sess.refreshKey] + keys);
    if sess.sid == 0 then t
    else RemoveConnection(t, IndexKey(sess.tenant, sess.assistant), Connection(sess.sid, sid))
  }

  /** A connection ended: its session, its own refresh grant, those named and its line are
      gone; and nothing else is. */
  lemma EndedIsGone(st: State, sid: Id, sess: Session, keys: seq<Id>)
    ensures var t := EndedConnection(st, sid, sess, keys);
            var line := (IndexKey(sess.tenant, sess.assistant), Connection(sess.sid, sid));
            && t.flows == st.flows && t.codes == st.codes && t.shared == st.shared && t.apps == st.apps
            && (forall k :: k in t.sessions <==> k in st.sessions && k != sid)
            && (forall k :: k in t.sessions ==> t.sessions[k] == st.sessions[k])
            && (forall k :: k in t.refresh <==> k in st.refresh && (k == 0 || (k != sess.refreshKey && k !in keys)))
            && (forall k :: k in t.refresh ==> t.refresh[k] == st.refresh[k])
            && (forall l :: l in t.index <==> l in st.index && (sess.sid == 0 || l != line))
            && (forall l :: l in t.index ==> t.index[l] == st.index[l])
  {
    GrantsGone(DeleteSession(st, sid), [sess.refreshKey] + keys);
  }

  /** Each of the refresh grants named; a key that is none is passed over. */
  method DeleteGrants(store: Store, keys: seq<Id>, ghost st: State)
    requires store.Valid() && store.View() == st
    modifies store
    ensures store.Valid() && store.now == old(store.now) && store.View() == WithoutGrants(st, keys)
  {
    for i := 0 to |keys|
      invariant store.Valid() && store.now == old(store.now) && store.View() == WithoutGrants(st, keys[..i])
    {
      assert keys[..i + 1][..i] == keys[..i];
      if keys[i] == 0 {
        continue;
      }
      store.DeleteRefresh(keys[i]);
    }
    assert keys[..|keys|] == keys;
  }

  /** endConnection: the session, every refresh grant named, and its line. */
  method EndConnection(store: Store, sid: Id, sess: Session, keys: seq<Id>, ghost st: State)
    requires store.Valid() && store.View() == st
    modifies store
    ensures store.Valid() && store.now == old(store.now)
    ensures store.View() == EndedConnection(st, sid, sess, keys)
  {
    store.DeleteSession(sid);
    DeleteGrants(store, [sess.refreshKey] + keys, DeleteSession(st, sid));
    if sess.sid != 0 {
      store.RemoveConnection(IndexKey(sess.tenant, sess.assistant), Connection(sess.sid, sid));
    }
  }

  // The session a line names is there, and was kept for that line.
  predicate Fits(st: State, key: IndexKey, c: Connection) {
    && c.sessionID in st.sessions
    && st.sessions[c.sessionID].sid == c.id
    && st.sessions[c.sessionID].tenant == key.tenant && st.sessions[c.sessionID].assistant == key.assistant
  }

  predicate HasLine(st: State, key: IndexKey, c: Connection) {
    (key, c) in st.index
  }

  lemma LinesAreAnswered(st: State, key: IndexKey)
    ensures forall c :: c in Connections(st, key) <==> HasLine(st, key, c)
  {
    forall c | HasLine(st, key, c) ensures c in Connections(st, key) { assert (key, c).1 in Connections(st, key); }
  }

  // No two lines of an index have one name, as every name is drawn at random.
  ghost predicate NamesApart(st: State, key: IndexKey) {
    forall c, d :: HasLine(st, key, c) && HasLine(st, key, d) && c.id == d.id ==> c == d
  }

  // No line has the name, or one that has it does not fit; where names are one line's
  // each, none fits.
  ghost predicate Missing(st: State, key: IndexKey, name: Id) {
    && ((forall c :: HasLine(st, key, c) ==> c.id != name)
        || exists c :: HasLine(st, key, c) && c.id == name && !Fits(st, key, c))
    && (NamesApart(st, key) ==> forall c :: HasLine(st, key, c) && c.id == name ==> !Fits(st, key, c))
  }

  lemma OneDoesNotFit(st: State, key: IndexKey, c: Connection)
    requires HasLine(st, key, c) && !Fits(st, key, c)
    ensures Missing(st, key, c.id)
  {}

  lemma NoneHasTheName(st: State, key: IndexKey, name: Id)
    requires forall c :: HasLine(st, key, c) ==> c.id != name
    ensures Missing(st, key, name)
  {}

  // A line is dropped only if its session is gone.
  ghost predicate DropsDeadLine(s: State, t: State, key: IndexKey, name: Id) {
    t == s || exists c :: HasLine(s, key, c) && c.id == name && c.sessionID !in s.sessions
                          && t == RemoveConnection(s, key, c)
  }

  /** findConnection: the session of the line with that name, if it is there and was
      kept for it; a line whose session is gone is dropped on the way. */
  method FindConnection(store: Store, key: IndexKey, name: Id, ghost st: State) returns (found: Option<(Id, Session)>)
    requires store.Valid() && store.View() == st
    modifies store
    ensures store.Valid() && store.now == old(store.now) && DropsDeadLine(st, store.View(), key, name)
    ensures found.Some? ==>
              && HasLine(st, key, Connection(name, found.value.0)) && Fits(st, key, Connection(name, found.value.0))
              && st.sessions[found.value.0] == found.value.1 && store.View() == st
              && found.value.1.sid == name && found.value.1.tenant == key.tenant
              && found.value.1.assistant == key.assistant
    ensures found.None? ==> Missing(st, key, name)
  {
    LinesAreAnswered(st, key);
    var rest := store.Connections(key);
    while rest != {}
      invariant store.Valid() && store.now == old(store.now) && store.View() == st
      invariant forall c :: c in rest ==> HasLine(st, key, c)
      invariant forall c :: HasLine(st, key, c) && c !in rest ==> c.id != name
    {
      var c :| c in rest;
      rest := rest - {c};
      if c.id != name {
        continue;
      }
      var sess := store.LoadSession(c.sessionID);
      if sess.None? {
        OneDoesNotFit(st, key, c);
        store.RemoveConnection(key, c);
        return None;
      }
      if sess.value.assistant != key.assistant || sess.value.tenant != key.tenant || sess.value.sid != name {
        OneDoesNotFit(st, key, c);
        return None;
      }
      return Some((c.sessionID, sess.value));
    }
    NoneHasTheName(st, key, name);
    return None;
  }

  // What both may do to an index: no line goes while its session stands.
  ghost predicate Tidies(s: State, t: State, sids: set<Id>, key: IndexKey) {
    OnlyEnds(s, t, sids, key) && forall c :: HasLine(s, key, c) && Fits(t, key, c) ==> HasLine(t, key, c)
  }

  lemma DroppingTidies(s: State, t: State, key: IndexKey, name: Id)
    requires DropsDeadLine(s, t, key, name)
    ensures Tidies(s, t, {}, key) && t.sessions == s.sessions
  {
    if t != s {
      var d :| HasLine(s, key, d) && d.id == name && d.sessionID !in s.sessions && t == RemoveConnection(s, key, d);
    }
  }

  lemma EndingTidies(s: State, sid: Id, sess: Session, key: IndexKey)
    requires sess.tenant == key.tenant && sess.assistant == key.assistant
    ensures Tidies(s, EndedConnection(s, sid, sess, []), {sid}, key)
    ensures sid !in EndedConnection(s, sid, sess, []).sessions
  {
    var gone := DeleteSession(s, sid);
    var left := WithoutGrants(gone, [sess.refreshKey] + []);
    GrantsGone(gone, [sess.refreshKey] + []);
    LineGone(s, left, sid, sess, key);
  }

  lemma LineGone(s: State, left: State, sid: Id, sess: Session, key: IndexKey)
    requires sess.tenant == key.tenant && sess.assistant == key.assistant
    requires left == DeleteSession(s, sid).(refresh := left.refresh)
    requires forall k :: k in left.refresh ==> Same(s.refresh, left.refresh, k)
    ensures var t := if sess.sid == 0 then left else RemoveConnection(left, key, Connection(sess.sid, sid));
            Tidies(s, t, {sid}, key)
  {}

  lemma TidyingGoesOn(s: State, t: State, u: State, a: set<Id>, b: set<Id>, key: IndexKey)
    requires Tidies(s, t, a, key) && Tidies(t, u, b, key)
    ensures Tidies(s, u, a + b, key)
  {
    forall c | HasLine(s, key, c) && Fits(u, key, c) ensures HasLine(u, key, c) {
      assert Fits(t, key, c);
    }
  }

  lemma StillApart(s: State, t: State, sids: set<Id>, key: IndexKey)
    requires NamesApart(s, key) && Tidies(s, t, sids, key)
    ensures NamesApart(t, key)
  {
    forall c | HasLine(t, key, c) ensures HasLine(s, key, c) {}
  }

  // The sessions an index names.
  function Named(st: State, key: IndexKey): set<Id> {
    set c | c in Connections(st, key) :: c.sessionID
  }

  /** One line of the walk: the app connected by it is signed out; where two lines have
      its name, that of either. */
  method SignOutLine(store: Store, key: IndexKey, c: Connection, ghost st: State)
    returns (ghost next: State, ghost gone: set<Id>)
    requires store.Valid() && store.View() == st
    modifies store
    ensures store.Valid() && store.now == old(store.now) && store.View() == next
    ensures Tidies(st, next, gone, key) && gone <= Named(st, key)
    ensures NamesApart(st, key) && HasLine(st, key, c) && Fits(st, key, c) ==> c.sessionID !in next.sessions
  {
    var found := FindConnection(store, key, c.id, st);
    next, gone := store.View(), {};
    if found.None? {
      DroppingTidies(st, next, key, c.id);
      return;
    }
    var (sid, sess) := found.value;
    LinesAreAnswered(st, key);
    assert Connection(c.id, sid) in Connections(st, key);
    EndConnection(store, sid, sess, [], st);
    EndingTidies(st, sid, sess, key);
    next, gone := EndedConnection(st, sid, sess, []), {sid};
  }

  // The walk so far: what it has tidied, and what it has signed out.
  ghost predicate Walked(st: State, cur: State, key: IndexKey, rest: set<Connection>) {
    && Tidies(st, cur, Named(st, key), key)
    && (forall c :: c in rest ==> c in Connections(st, key))
    && (NamesApart(st, key) ==>
          forall c :: c in Connections(st, key) && Fits(st, key, c) && c !in rest ==> c.sessionID !in cur.sessions)
  }

  lemma NamedBefore(st: State, cur: State, key: IndexKey, sids: set<Id>)
    requires Tidies(st, cur, sids, key)
    ensures Named(cur, key) <= Named(st, key)
  {
    LinesAreAnswered(st, key);
    LinesAreAnswered(cur, key);
    forall c | c in Connections(cur, key) ensures c in Connections(st, key) { assert HasLine(cur, key, c); }
  }

  lemma WalkGoesOn(
    st: State, cur: State, next: State, key: IndexKey, rest: set<Connection>, c: Connection, gone: set<Id>)
    requires Walked(st, cur, key, rest) && c in rest && Tidies(cur, next, gone, key) && gone <= Named(cur, key)
    requires NamesApart(cur, key) && HasLine(cur, key, c) && Fits(cur, key, c) ==> c.sessionID !in next.sessions
    ensures Walked(st, next, key, rest - {c})
  {
    LinesAreAnswered(st, key);
    NamedBefore(st, cur, key, Named(st, key));
    TidyingGoesOn(st, cur, next, Named(st, key), gone, key);
    assert Named(st, key) + gone == Named(st, key);
    if NamesApart(st, key) {
      StillApart(st, cur, Named(st, key), key);
      assert Fits(st, key, c) && c.sessionID in cur.sessions ==> Fits(cur, key, c);
    }
  }

  lemma WalkBegins(st: State, key: IndexKey)
    ensures Walked(st, st, key, Connections(st, key))
  {}

  /** The lines still to be walked. */
  method SignOutLines(store: Store, key: IndexKey, lines: set<Connection>, ghost st: State, ghost from: State)
    requires store.Valid() && store.View() == from && Walked(st, from, key, lines)
    modifies store
    ensures store.Valid() && store.now == old(store.now) && Walked(st, store.View(), key, {})
    decreases |lines|
  {
    if lines == {} {
      return;
    }
    var c :| c in lines;
    ghost var next, gone := SignOutLine(store, key, c, from);
    WalkGoesOn(st, from, next, key, lines, c, gone);
    SignOutLines(store, key, lines - {c}, st, next);
  }

  /** endAssistantConnections: every app connected as the assistant is signed out, where
      its connections have names of their own; and nothing else is ended. */
  method EndAssistantConnections(store: Store, key: IndexKey, ghost st: State)
    requires store.Valid() && store.View() == st
    modifies store
    ensures store.Valid() && store.now == old(store.now)
    ensures NamesApart(st, key) ==>
              forall c :: c in Connections(st, key) && Fits(st, key, c) ==> c.sessionID !in store.View().sessions
    ensures OnlyEnds(st, store.View(), Named(st, key), key)
  {
    var lines := store.Connections(key);
    WalkBegins(st, key);
    SignOutLines(store, key, lines, st, st);
  }

  // Ending a shared session

  function EndedApp(st: State, sid: Id): State {
    var t := if sid in st.sessions && st.sessions[sid].refreshKey != 0
             then DeleteRefresh(st, st.sessions[sid].refreshKey) else st;
    DeleteSession(t, sid)
  }

  /** endAppSession: an app session and its refresh grant. */
  method EndAppSession(store: Store, sid: Id, ghost st: State)
    requires store.Valid() && store.View() == st
    modifies store
    ensures store.Valid() && store.now == old(store.now) && store.View() == EndedApp(st, sid)
  {
    var sess := store.LoadSession(sid);
    if sess.Some? && sess.value.refreshKey != 0 {
      store.DeleteRefresh(sess.value.refreshKey);
    }
    store.DeleteSession(sid);
  }

  // Of the sessions in all but not in rest, none is left, nor the refresh grant of
  // one; of others, everything.
  ghost predicate AppsEnded(s: State, t: State, all: set<Id>, rest: set<Id>) {
    SessionsEnded(s, t, all, rest) && GrantsEnded(s, t, all, rest)
  }

  ghost predicate SessionsEnded(s: State, t: State, all: set<Id>, rest: set<Id>) {
    && t.shared == s.shared && t.apps == s.apps
    && (forall k :: k in t.sessions <==> k in s.sessions && !(k in all && k !in rest))
    && (forall k :: k in t.sessions ==> t.sessions[k] == s.sessions[k])
  }

  ghost predicate GrantsEnded(s: State, t: State, all: set<Id>, rest: set<Id>) {
    && (forall k :: k in s.sessions && k in all && k !in rest && s.sessions[k].refreshKey != 0 ==>
                      s.sessions[k].refreshKey !in t.refresh)
    && (forall k :: k in t.refresh ==> Same(s.refresh, t.refresh, k))
    && (forall k :: k in s.refresh && k !in t.refresh ==>
                      exists sid :: sid in s.sessions && sid in all && sid !in rest && s.sessions[sid].refreshKey == k)
  }

  lemma NoneEndedYet(s: State, all: set<Id>)
    ensures AppsEnded(s, s, all, all)
  {}

  lemma SessionEndedNext(s: State, t: State, all: set<Id>, rest: set<Id>, sid: Id)
    requires SessionsEnded(s, t, all, rest) && sid in rest && sid in all
    ensures SessionsEnded(s, EndedApp(t, sid), all, rest - {sid})
  {}

  lemma GrantEndedNext(s: State, t: State, all: set<Id>, rest: set<Id>, sid: Id)
    requires SessionsEnded(s, t, all, rest) && GrantsEnded(s, t, all, rest) && sid in rest && sid in all
    ensures GrantsEnded(s, EndedApp(t, sid), all, rest - {sid})
  {
    assert sid in s.sessions <==> sid in t.sessions;
  }

  /** Each of the sessions in turn, in whatever order; those in rest are still to be
      ended. */
  method EndApps(store: Store, rest: set<Id>, ghost all: set<Id>, ghost st: State, ghost from: State)
    requires store.Valid() && store.View() == from && rest <= all && AppsEnded(st, from, all, rest)
    modifies store
    ensures store.Valid() && store.now == old(store.now) && AppsEnded(st, store.View(), all, {})
    decreases |rest|
  {
    if rest == {} {
      return;
    }
    var sid :| sid in rest;
    EndAppSession(store, sid, from);
    SessionEndedNext(st, from, all, rest, sid);
    GrantEndedNext(st, from, all, rest, sid);
    EndApps(store, rest - {sid}, all, st, EndedApp(from, sid));
  }

  /** endShared: the record and its list are gone, every session the list named is
      ended with its refresh grant, and no other is. One already gone ends nothing. */
  method EndShared(store: Store, id: Id, ghost st: State) returns (ended: bool)
    requires store.Valid() && store.View() == st
    modifies store
    ensures store.Valid() && store.now == old(store.now)
    ensures ended <==> id in st.shared
    ensures if ended
            then AppsEnded(TakeSharedApps(DropShared(st, id).0, id).0, store.View(), SharedApps(st, id).Values, {})
            else store.View() == st
  {
    var apps := store.EndShared(id);
    if apps.None? {
      return false;
    }
    ghost var taken := TakeSharedApps(DropShared(st, id).0, id).0;
    NoneEndedYet(taken, apps.value.Values);
    EndApps(store, apps.value.Values, apps.value.Values, taken, taken);
    return true;
  }
}
