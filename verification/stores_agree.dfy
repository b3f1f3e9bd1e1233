/** Both stores answer alike: for every sequence of calls, with lifetimes that last
    and a clock that never goes back, call by call the same answer. */
module StoresAgree {
  import opened StoreModel
  import opened SessionStore
  import opened MemoryStore

  datatype Call =
    | Clock(time: Time)
    | SavesFlow(id: Id, flow: Flow, ttl: Time)
    | ConsumesFlow(id: Id)
    | SavesAppCode(id: Id, code: AppCode, ttl: Time)
    | ConsumesAppCode(id: Id)
    | CreatesSession(id: Id, sess: Session, ttl: Time)
    | ReplacesSession(id: Id, sess: Session)
    | LoadsSession(id: Id)
    | DeletesSession(id: Id)
    | SavesRefresh(id: Id, grant: RefreshGrant, until: Time)
    | LoadsRefresh(id: Id)
    | TakesRefresh(id: Id)
    | DeletesRefresh(id: Id)
    | CreatesShared(id: Id, record: Shared)
    | ReplacesShared(id: Id, record: Shared)
    | LoadsShared(id: Id)
    | PutsSharedApp(id: Id, client: string, sid: Id, until: Time)
    | ListsSharedApps(id: Id)
    | EndsShared(id: Id)
    | AddsConnection(key: IndexKey, conn: Connection, until: Time)
    | ListsConnections(key: IndexKey)
    | RemovesConnection(key: IndexKey, conn: Connection)

  datatype Answer =
    | Done
    | Accepted(ok: bool)
    | GotFlow(flow: Option<Flow>)
    | GotCode(code: Option<AppCode>)
    | GotSession(session: Option<Session>)
    | GotGrant(grant: Option<RefreshGrant>)
    | GotShared(record: Option<Shared>)
    | MadeShared(made: CreateAnswer)
    | GotPrevious(previous: Option<Id>)
    | GotApps(apps: Option<map<string, Id>>)
    | GotConnections(connections: set<Connection>)

  function EndShared(st: State, id: Id): (State, Option<map<string, Id>>) {
    var (dropped, removed) := DropShared(st, id);
    if !removed then (dropped, None)
    else var (taken, apps) := TakeSharedApps(dropped, id); (taken, Some(apps))
  }

  // What a call is to do and answer.
  function Does(st: State, now: Time, call: Call): (State, Answer) {
    match call
    case Clock(time) => (Age(st, time), Done)
    case SavesFlow(id, flow, ttl) => (SaveFlow(st, now, id, flow, ttl), Done)
    case ConsumesFlow(id) => var (t, flow) := ConsumeFlow(st, id); (t, GotFlow(flow))
    case SavesAppCode(id, code, ttl) => (SaveAppCode(st, now, id, code, ttl), Done)
    case ConsumesAppCode(id) => var (t, code) := ConsumeAppCode(st, id); (t, GotCode(code))
    case CreatesSession(id, sess, ttl) => var (t, ok) := CreateSession(st, now, id, sess, ttl); (t, Accepted(ok))
    case ReplacesSession(id, sess) => var (t, ok) := ReplaceSession(st, now, id, sess); (t, Accepted(ok))
    case LoadsSession(id) => (st, GotSession(LoadSession(st, id)))
    case DeletesSession(id) => (DeleteSession(st, id), Done)
    case SavesRefresh(id, grant, until) => var (t, ok) := SaveRefresh(st, now, id, grant, until); (t, Accepted(ok))
    case LoadsRefresh(id) => (st, GotGrant(LoadRefresh(st, id)))
    case TakesRefresh(id) => var (t, grant) := TakeRefresh(st, id); (t, GotGrant(grant))
    case DeletesRefresh(id) => (DeleteRefresh(st, id), Done)
    case CreatesShared(id, record) => var (t, made) := CreateShared(st, now, id, record); (t, MadeShared(made))
    case ReplacesShared(id, record) => var (t, ok) := ReplaceShared(st, now, id, record); (t, Accepted(ok))
    case LoadsShared(id) => (st, GotShared(LoadShared(st, id)))
    case PutsSharedApp(id, client, sid, until) =>
      var (t, previous) := PutSharedApp(st, now, id, client, sid, until); (t, GotPrevious(previous))
    case ListsSharedApps(id) => (st, GotApps(Some(SharedApps(st, id))))
    case EndsShared(id) => var (t, apps) := EndShared(st, id); (t, GotApps(apps))
    case AddsConnection(key, conn, until) => var (t, ok) := AddConnection(st, now, key, conn, until); (t, Accepted(ok))
    case ListsConnections(key) => (st, GotConnections(Connections(st, key)))
    case RemovesConnection(key, conn) => (RemoveConnection(st, key, conn), Done)
  }

  // A lifetime lasts, and the clock never goes back.
  predicate Fair(now: Time, call: Call) {
    match call
    case Clock(time) => now <= time
    case SavesFlow(_, _, ttl) => 0 < ttl
    case SavesAppCode(_, _, ttl) => 0 < ttl
    case CreatesSession(_, _, ttl) => 0 < ttl
    case _ => true
  }

  function NextNow(now: Time, call: Call): Time {
    if call.Clock? then call.time else now
  }

  predicate AllFair(now: Time, calls: seq<Call>)
    decreases |calls|
  {
    calls == [] || (Fair(now, calls[0]) && AllFair(NextNow(now, calls[0]), calls[1..]))
  }

  // What a call is about: the clock, flows and codes; sessions; refresh grants; shared
  // sessions; or else an index.

  predicate OfCodes(call: Call) {
    call.Clock? || call.SavesFlow? || call.ConsumesFlow? || call.SavesAppCode? || call.ConsumesAppCode?
  }

  predicate OfSessions(call: Call) {
    call.CreatesSession? || call.ReplacesSession? || call.LoadsSession? || call.DeletesSession?
  }

  predicate OfRefresh(call: Call) {
    call.SavesRefresh? || call.LoadsRefresh? || call.TakesRefresh? || call.DeletesRefresh?
  }

  predicate OfShared(call: Call) {
    || call.CreatesShared? || call.ReplacesShared? || call.LoadsShared? || call.PutsSharedApp?
    || call.ListsSharedApps? || call.EndsShared?
  }

  // The service store's answer to a call.

  method RealCodes(store: Store, call: Call) returns (answer: Answer)
    requires OfCodes(call)
    requires store.Valid() && Fair(store.now, call)
    modifies store
    ensures store.Valid() && store.now == NextNow(old(store.now), call)
    ensures (store.View(), answer) == Does(old(store.View()), old(store.now), call)
  {
    answer := Done;
    if call.Clock? {
      store.SetClock(call.time);
    } else if call.SavesFlow? {
      store.SaveFlow(call.id, call.flow, call.ttl);
    } else if call.ConsumesFlow? {
      var got := store.ConsumeFlow(call.id);
      answer := GotFlow(got);
    } else if call.SavesAppCode? {
      store.SaveAppCode(call.id, call.code, call.ttl);
    } else if call.ConsumesAppCode? {
      var got := store.ConsumeAppCode(call.id);
      answer := GotCode(got);
    }
  }

  method RealSessions(store: Store, call: Call) returns (answer: Answer)
    requires OfSessions(call)
    requires store.Valid() && Fair(store.now, call)
    modifies store
    ensures store.Valid() && store.now == NextNow(old(store.now), call)
    ensures (store.View(), answer) == Does(old(store.View()), old(store.now), call)
  {
    answer := Done;
    if call.CreatesSession? {
      var added, _ := store.CreateSession(call.id, call.sess, call.ttl);
      answer := Accepted(added);
    } else if call.ReplacesSession? {
      var got := store.ReplaceSession(call.id, call.sess);
      answer := Accepted(got);
    } else if call.LoadsSession? {
      var got := store.LoadSession(call.id);
      answer := GotSession(got);
    } else if call.DeletesSession? {
      store.DeleteSession(call.id);
    }
  }

  method RealRefresh(store: Store, call: Call) returns (answer: Answer)
    requires OfRefresh(call)
    requires store.Valid() && Fair(store.now, call)
    modifies store
    ensures store.Valid() && store.now == NextNow(old(store.now), call)
    ensures (store.View(), answer) == Does(old(store.View()), old(store.now), call)
  {
    answer := Done;
    if call.SavesRefresh? {
      var got := store.SaveRefresh(call.id, call.grant, call.until);
      answer := Accepted(got);
    } else if call.LoadsRefresh? {
      var got := store.LoadRefresh(call.id);
      answer := GotGrant(got);
    } else if call.TakesRefresh? {
      var got := store.TakeRefresh(call.id);
      answer := GotGrant(got);
    } else if call.DeletesRefresh? {
      store.DeleteRefresh(call.id);
    }
  }

  method RealShared(store: Store, call: Call) returns (answer: Answer)
    requires OfShared(call)
    requires store.Valid() && Fair(store.now, call)
    modifies store
    ensures store.Valid() && store.now == NextNow(old(store.now), call)
    ensures (store.View(), answer) == Does(old(store.View()), old(store.now), call)
  {
    answer := Done;
    if call.CreatesShared? {
      var got := store.CreateShared(call.id, call.record);
      answer := MadeShared(got);
    } else if call.ReplacesShared? {
      var got := store.ReplaceShared(call.id, call.record);
      answer := Accepted(got);
    } else if call.LoadsShared? {
      var got := store.LoadShared(call.id);
      answer := GotShared(got);
    } else if call.PutsSharedApp? {
      var got := store.PutSharedApp(call.id, call.client, call.sid, call.until);
      answer := GotPrevious(got);
    } else if call.ListsSharedApps? {
      var list := store.SharedApps(call.id);
      answer := GotApps(Some(list));
    } else if call.EndsShared? {
      var got := store.EndShared(call.id);
      answer := GotApps(got);
    }
  }

  method RealAdding(store: Store, call: Call) returns (answer: Answer)
    requires call.AddsConnection? && store.Valid()
    modifies store
    ensures store.Valid() && store.now == old(store.now)
    ensures (store.View(), answer) == Does(old(store.View()), old(store.now), call)
  {
    var got := store.AddConnection(call.key, call.conn, call.until);
    answer := Accepted(got);
  }

  method RealListing(store: Store, call: Call) returns (answer: Answer)
    requires call.ListsConnections? && store.Valid()
    modifies store
    ensures store.Valid() && store.now == old(store.now)
    ensures (store.View(), answer) == Does(old(store.View()), old(store.now), call)
  {
    var got := store.Connections(call.key);
    answer := GotConnections(got);
  }

  method RealRemoving(store: Store, call: Call) returns (answer: Answer)
    requires call.RemovesConnection? && store.Valid()
    modifies store
    ensures store.Valid() && store.now == old(store.now)
    ensures (store.View(), answer) == Does(old(store.View()), old(store.now), call)
  {
    store.RemoveConnection(call.key, call.conn);
    answer := Done;
  }

  method Real(store: Store, call: Call) returns (answer: Answer)
    requires store.Valid() && Fair(store.now, call)
    modifies store
    ensures store.Valid() && store.now == NextNow(old(store.now), call)
    ensures (store.View(), answer) == Does(old(store.View()), old(store.now), call)
  {
    if OfCodes(call) {
      answer := RealCodes(store, call);
    } else if OfSessions(call) {
      answer := RealSessions(store, call);
    } else if OfRefresh(call) {
      answer := RealRefresh(store, call);
    } else if OfShared(call) {
      answer := RealShared(store, call);
    } else if call.AddsConnection? {
      answer := RealAdding(store, call);
    } else if call.ListsConnections? {
      answer := RealListing(store, call);
    } else {
      answer := RealRemoving(store, call);
    }
  }

  // The memory store's answer to a call.

  method KeptCodes(memory: Memory, call: Call) returns (answer: Answer)
    requires OfCodes(call)
    requires memory.Valid() && Fair(memory.now, call)
    modifies memory
    ensures memory.Valid() && memory.now == NextNow(old(memory.now), call)
    ensures (memory.View(), answer) == Does(old(memory.View()), old(memory.now), call)
  {
    answer := Done;
    if call.Clock? {
      memory.SetClock(call.time);
    } else if call.SavesFlow? {
      memory.SaveFlow(call.id, call.flow, call.ttl);
    } else if call.ConsumesFlow? {
      var got := memory.ConsumeFlow(call.id);
      answer := GotFlow(got);
    } else if call.SavesAppCode? {
      memory.SaveAppCode(call.id, call.code, call.ttl);
    } else if call.ConsumesAppCode? {
      var got := memory.ConsumeAppCode(call.id);
      answer := GotCode(got);
    }
  }

  method KeptSessions(memory: Memory, call: Call) returns (answer: Answer)
    requires OfSessions(call)
    requires memory.Valid() && Fair(memory.now, call)
    modifies memory
    ensures memory.Valid() && memory.now == NextNow(old(memory.now), call)
    ensures (memory.View(), answer) == Does(old(memory.View()), old(memory.now), call)
  {
    answer := Done;
    if call.CreatesSession? {
      var added, _ := memory.CreateSession(call.id, call.sess, call.ttl);
      answer := Accepted(added);
    } else if call.ReplacesSession? {
      var got := memory.ReplaceSession(call.id, call.sess);
      answer := Accepted(got);
    } else if call.LoadsSession? {
      var got := memory.LoadSession(call.id);
      answer := GotSession(got);
    } else if call.DeletesSession? {
      memory.DeleteSession(call.id);
    }
  }

  method KeptRefresh(memory: Memory, call: Call) returns (answer: Answer)
    requires OfRefresh(call)
    requires memory.Valid() && Fair(memory.now, call)
    modifies memory
    ensures memory.Valid() && memory.now == NextNow(old(memory.now), call)
    ensures (memory.View(), answer) == Does(old(memory.View()), old(memory.now), call)
  {
    answer := Done;
    if call.SavesRefresh? {
      var got := memory.SaveRefresh(call.id, call.grant, call.until);
      answer := Accepted(got);
    } else if call.LoadsRefresh? {
      var got := memory.LoadRefresh(call.id);
      answer := GotGrant(got);
    } else if call.TakesRefresh? {
      var got := memory.TakeRefresh(call.id);
      answer := GotGrant(got);
    } else if call.DeletesRefresh? {
      memory.DeleteRefresh(call.id);
    }
  }

  method KeptShared(memory: Memory, call: Call) returns (answer: Answer)
    requires OfShared(call)
    requires memory.Valid() && Fair(memory.now, call)
    modifies memory
    ensures memory.Valid() && memory.now == NextNow(old(memory.now), call)
    ensures (memory.View(), answer) == Does(old(memory.View()), old(memory.now), call)
  {
    answer := Done;
    if call.CreatesShared? {
      var got := memory.CreateShared(call.id, call.record);
      answer := MadeShared(got);
    } else if call.ReplacesShared? {
      var got := memory.ReplaceShared(call.id, call.record);
      answer := Accepted(got);
    } else if call.LoadsShared? {
      var got := memory.LoadShared(call.id);
      answer := GotShared(got);
    } else if call.PutsSharedApp? {
      var got := memory.PutSharedApp(call.id, call.client, call.sid, call.until);
      answer := GotPrevious(got);
    } else if call.ListsSharedApps? {
      var list := memory.SharedApps(call.id);
      answer := GotApps(Some(list));
    } else if call.EndsShared? {
      var got := memory.EndShared(call.id);
      answer := GotApps(got);
    }
  }

  method KeptAdding(memory: Memory, call: Call) returns (answer: Answer)
    requires call.AddsConnection? && memory.Valid()
    modifies memory
    ensures memory.Valid() && memory.now == old(memory.now)
    ensures (memory.View(), answer) == Does(old(memory.View()), old(memory.now), call)
  {
    var got := memory.AddConnection(call.key, call.conn, call.until);
    answer := Accepted(got);
  }

  method KeptListing(memory: Memory, call: Call) returns (answer: Answer)
    requires call.ListsConnections? && memory.Valid()
    modifies memory
    ensures memory.Valid() && memory.now == old(memory.now)
    ensures (memory.View(), answer) == Does(old(memory.View()), old(memory.now), call)
  {
    var got := memory.Connections(call.key);
    answer := GotConnections(got);
  }

  method KeptRemoving(memory: Memory, call: Call) returns (answer: Answer)
    requires call.RemovesConnection? && memory.Valid()
    modifies memory
    ensures memory.Valid() && memory.now == old(memory.now)
    ensures (memory.View(), answer) == Does(old(memory.View()), old(memory.now), call)
  {
    memory.RemoveConnection(call.key, call.conn);
    answer := Done;
  }

  method Kept(memory: Memory, call: Call) returns (answer: Answer)
    requires memory.Valid() && Fair(memory.now, call)
    modifies memory
    ensures memory.Valid() && memory.now == NextNow(old(memory.now), call)
    ensures (memory.View(), answer) == Does(old(memory.View()), old(memory.now), call)
  {
    if OfCodes(call) {
      answer := KeptCodes(memory, call);
    } else if OfSessions(call) {
      answer := KeptSessions(memory, call);
    } else if OfRefresh(call) {
      answer := KeptRefresh(memory, call);
    } else if OfShared(call) {
      answer := KeptShared(memory, call);
    } else if call.AddsConnection? {
      answer := KeptAdding(memory, call);
    } else if call.ListsConnections? {
      answer := KeptListing(memory, call);
    } else {
      answer := KeptRemoving(memory, call);
    }
  }

  // The answers to a sequence of calls.
  function Answers(st: State, now: Time, calls: seq<Call>): seq<Answer>
    decreases |calls|
  {
    if calls == [] then []
    else
      var (next, answer) := Does(st, now, calls[0]);
      [answer] + Answers(next, NextNow(now, calls[0]), calls[1..])
  }

  // Both stores are asked the same.
  method Both(store: Store, memory: Memory, call: Call, ghost st: State) returns (a: Answer, b: Answer)
    requires store.Valid() && memory.Valid() && store.now == memory.now && Fair(store.now, call)
    requires store.View() == st && memory.View() == st
    modifies store, memory
    ensures store.Valid() && memory.Valid() && store.now == memory.now == NextNow(old(store.now), call)
    ensures var (next, answer) := Does(st, old(store.now), call);
            store.View() == next && memory.View() == next && a == answer && b == answer
  {
    a := Real(store, call);
    b := Kept(memory, call);
  }

  method SameAnswersFrom(store: Store, memory: Memory, calls: seq<Call>, ghost st: State)
    returns (served: seq<Answer>, remembered: seq<Answer>)
    requires store.Valid() && memory.Valid() && store.now == memory.now && AllFair(store.now, calls)
    requires store.View() == st && memory.View() == st
    modifies store, memory
    ensures served == remembered == Answers(st, old(store.now), calls)
    decreases |calls|
  {
    if calls == [] {
      return [], [];
    }
    ghost var next := Does(st, store.now, calls[0]).0;
    var a, b := Both(store, memory, calls[0], st);
    served, remembered := SameAnswersFrom(store, memory, calls[1..], next);
    served, remembered := [a] + served, [b] + remembered;
  }

  /** Both stores, asked the same from the start, give the same answers: those of the
      model. */
  method SameAnswers(start: Time, calls: seq<Call>) returns (served: seq<Answer>, remembered: seq<Answer>)
    requires 0 < start && AllFair(start, calls)
    ensures served == remembered == Answers(EMPTY, start, calls)
  {
    var store := new Store(start);
    var memory := new Memory(start);
    served, remembered := SameAnswersFrom(store, memory, calls, EMPTY);
  }

  // The caller's own record of a session the service's store refused, its id taken.
  method ServedRecord(start: Time, sid: Id, sess: Session, ttl: Time) returns (record: Session)
    requires 0 < start && 0 < ttl
    ensures record == sess.(expiresAt := start + ttl)
  {
    var store := new Store(start);
    var added, taken := store.CreateSession(sid, sess, ttl);
    added, record := store.CreateSession(sid, sess, ttl);
  }

  // And of one the memory store refused.
  method RememberedRecord(start: Time, sid: Id, sess: Session, ttl: Time) returns (record: Session)
    requires 0 < start && 0 < ttl
    ensures record == sess
  {
    var memory := new Memory(start);
    var added, taken := memory.CreateSession(sid, sess, ttl);
    added, record := memory.CreateSession(sid, sess, ttl);
  }

  /** Where they are not alike: of a session refused because its id is taken, the
      service's store has already moved the end on the caller's own record. */
  method RefusedRecordsDiffer(start: Time, sid: Id, sess: Session, ttl: Time) returns (a: Session, b: Session)
    requires 0 < start && 0 < ttl
    ensures a == b <==> sess.expiresAt == start + ttl
  {
    a := ServedRecord(start, sid, sess, ttl);
    b := RememberedRecord(start, sid, sess, ttl);
  }

  // What the calls leave, and when.
  function After(st: State, now: Time, calls: seq<Call>): (State, Time)
    decreases |calls|
  {
    if calls == [] then (st, now) else After(Does(st, now, calls[0]).0, NextNow(now, calls[0]), calls[1..])
  }

  // The end a call leaves a connection with, that had `end` before: 0 for none.
  function NextEnd(end: Time, now: Time, call: Call, key: IndexKey, c: Connection): Time {
    if call.AddsConnection? && call.key == key && call.conn == c && now < call.until then call.until
    else if call.RemovesConnection? && call.key == key && call.conn == c then 0
    else end
  }

  // The end the calls leave it with: that of the last time it was added, unless it
  // was removed since.
  function LastEnd(end: Time, now: Time, calls: seq<Call>, key: IndexKey, c: Connection): Time
    decreases |calls|
  {
    if calls == [] then end
    else LastEnd(NextEnd(end, now, calls[0], key, c), NextNow(now, calls[0]), calls[1..], key, c)
  }

  predicate HasEnd(st: State, now: Time, key: IndexKey, c: Connection, end: Time) {
    if now < end then (key, c) in st.index && st.index[(key, c)] == end else (key, c) !in st.index
  }

  lemma IndexUntouched(st: State, now: Time, call: Call)
    requires !call.Clock? && !call.AddsConnection? && !call.RemovesConnection?
    ensures Does(st, now, call).0.index == st.index
  {}

  lemma CallKeepsEnd(st: State, now: Time, call: Call, key: IndexKey, c: Connection, end: Time)
    requires 0 < now && Fair(now, call) && HasEnd(st, now, key, c, end)
    ensures HasEnd(Does(st, now, call).0, NextNow(now, call), key, c, NextEnd(end, now, call, key, c))
  {
    if !call.Clock? && !call.AddsConnection? && !call.RemovesConnection? { IndexUntouched(st, now, call); }
  }

  lemma {:induction false} EndsAfter(st: State, now: Time, calls: seq<Call>, key: IndexKey, c: Connection, end: Time)
    requires 0 < now && AllFair(now, calls) && HasEnd(st, now, key, c, end)
    ensures HasEnd(After(st, now, calls).0, After(st, now, calls).1, key, c, LastEnd(end, now, calls, key, c))
    decreases |calls|
  {
    if calls != [] {
      CallKeepsEnd(st, now, calls[0], key, c, end);
      EndsAfter(Does(st, now, calls[0]).0, NextNow(now, calls[0]), calls[1..], key, c,
                NextEnd(end, now, calls[0], key, c));
    }
  }

  /** An assistant's index answers exactly the connections added to it, not removed
      since, whose end has not come; whatever else was done, and however often what
      had ended was dropped or kept. */
  lemma IndexAnswersWhatWasAdded(start: Time, calls: seq<Call>, key: IndexKey, c: Connection)
    requires 0 < start && AllFair(start, calls)
    ensures var (st, now) := After(EMPTY, start, calls);
            c in Connections(st, key) <==> now < LastEnd(0, start, calls, key, c)
  {
    EndsAfter(EMPTY, start, calls, key, c, 0);
    var (st, now) := After(EMPTY, start, calls);
    if (key, c) in st.index { assert c in Connections(st, key); }
  }
}
