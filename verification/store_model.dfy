/** What the session store holds at one instant and what each of its calls does
    to it. A `State` keeps only the entries that are still live; `Age` is the
    passing of time. Every call of session/store.go is one atomic step here. */
module StoreModel {

  // A random identifier or token. 0 stands for the empty string: none.
  type Id = nat

  // Milliseconds; a clock reading of 0 or less never happens.
  type Time = int

  datatype Option<+T> = None | Some(value: T)

  // An entry and the instant from which it is no longer there.
  datatype Timed<+T> = Timed(value: T, expires: Time)

  datatype Flow = Flow(sessionID: Id, clientID: string, tenant: string, appScopes: seq<string>)

  datatype AppCode = AppCode(
    sessionID: Id, clientID: string, tenant: string, assistant: string, appScopes: seq<string>)

  datatype Session = Session(
    subject: string, clientID: string, tenant: string, assistant: string, appScopes: seq<string>,
    loginMethod: string, thumbprint: string, authTime: int, shared: Id,
    refreshKey: Id, sid: Id, lastUsed: Time, expiresAt: Time)

  datatype RefreshGrant = RefreshGrant(sessionID: Id, clientID: string, rotated: bool)

  datatype Way = Way(loginMethod: string, authTime: int, signedIn: Time, ends: Time)

  datatype Shared = Shared(subject: string, ways: seq<Way>, expiresAt: Time)

  // A connection's public name and its session's key.
  datatype Connection = Connection(id: Id, sessionID: Id)

  // The assistant's index a connection is kept in.
  datatype IndexKey = IndexKey(tenant: string, assistant: string)

  datatype State = State(
    flows: map<Id, Timed<Flow>>,
    codes: map<Id, Timed<AppCode>>,
    sessions: map<Id, Session>,
    refresh: map<Id, Timed<RefreshGrant>>,
    shared: map<Id, Shared>,
    apps: map<Id, Timed<map<string, Id>>>,
    index: map<(IndexKey, Connection), Time>)

  const EMPTY := State(map[], map[], map[], map[], map[], map[], map[])

  function Lookup<K, V>(m: map<K, V>, k: K): Option<V> {
    if k in m then Some(m[k]) else None
  }

  function Unexpired<V>(m: map<Id, Timed<V>>, now: Time): map<Id, Timed<V>> {
    map k | k in m && now < m[k].expires :: m[k]
  }

  /** What is left of `st` at `now`: an entry is gone from the instant it ends. */
  function Age(st: State, now: Time): State {
    State(
      Unexpired(st.flows, now),
      Unexpired(st.codes, now),
      map k | k in st.sessions && now < st.sessions[k].expiresAt :: st.sessions[k],
      Unexpired(st.refresh, now),
      map k | k in st.shared && now < st.shared[k].expiresAt :: st.shared[k],
      Unexpired(st.apps, now),
      map k | k in st.index && now < st.index[k] :: st.index[k])
  }

  function Remove<K, V>(m: map<K, V>, k: K): map<K, V> {
    m - {k}
  }

  // n keeps what m has of k; and of every key.
  predicate Same<K, V(==)>(m: map<K, V>, n: map<K, V>, k: K) {
    k in m && k in n && n[k] == m[k]
  }

  predicate Extends<K, V(==)>(m: map<K, V>, n: map<K, V>) {
    forall k :: k in m ==> Same(m, n, k)
  }

  // Flows and codes

  function SaveFlow(st: State, now: Time, id: Id, flow: Flow, ttl: Time): State {
    st.(flows := st.flows[id := Timed(flow, now + ttl)])
  }

  function ConsumeFlow(st: State, id: Id): (State, Option<Flow>) {
    if id in st.flows then (st.(flows := Remove(st.flows, id)), Some(st.flows[id].value)) else (st, None)
  }

  function SaveAppCode(st: State, now: Time, id: Id, code: AppCode, ttl: Time): State {
    st.(codes := st.codes[id := Timed(code, now + ttl)])
  }

  function ConsumeAppCode(st: State, id: Id): (State, Option<AppCode>) {
    if id in st.codes then (st.(codes := Remove(st.codes, id)), Some(st.codes[id].value)) else (st, None)
  }

  // Sessions

  /** SET NX: false when a session with this id is there. */
  function CreateSession(st: State, now: Time, sid: Id, sess: Session, lifetime: Time): (State, bool) {
    if sid in st.sessions then (st, false)
    else (st.(sessions := st.sessions[sid := sess.(expiresAt := now + lifetime)]), true)
  }

  /** SET XX: false, and nothing written, when the session is gone or the copy has ended. */
  function ReplaceSession(st: State, now: Time, sid: Id, sess: Session): (State, bool) {
    if now < sess.expiresAt && sid in st.sessions then (st.(sessions := st.sessions[sid := sess]), true)
    else (st, false)
  }

  function LoadSession(st: State, sid: Id): Option<Session> {
    Lookup(st.sessions, sid)
  }

  function DeleteSession(st: State, sid: Id): State {
    st.(sessions := Remove(st.sessions, sid))
  }

  // Refresh grants

  function SaveRefresh(st: State, now: Time, key: Id, g: RefreshGrant, expiresAt: Time): (State, bool) {
    if now < expiresAt then (st.(refresh := st.refresh[key := Timed(g, expiresAt)]), true) else (st, false)
  }

  function LoadRefresh(st: State, key: Id): Option<RefreshGrant> {
    if key in st.refresh then Some(st.refresh[key].value) else None
  }

  function TakeRefresh(st: State, key: Id): (State, Option<RefreshGrant>) {
    if key in st.refresh then (st.(refresh := Remove(st.refresh, key)), Some(st.refresh[key].value)) else (st, None)
  }

  function DeleteRefresh(st: State, key: Id): State {
    st.(refresh := Remove(st.refresh, key))
  }

  // Shared sessions

  datatype CreateAnswer = Created | Exists | AlreadyEnded

  function CreateShared(st: State, now: Time, id: Id, sh: Shared): (State, CreateAnswer) {
    if sh.expiresAt <= now then (st, AlreadyEnded)
    else if id in st.shared then (st, Exists)
    else (st.(shared := st.shared[id := sh]), Created)
  }

  function ReplaceShared(st: State, now: Time, id: Id, sh: Shared): (State, bool) {
    if now < sh.expiresAt && id in st.shared then (st.(shared := st.shared[id := sh]), true) else (st, false)
  }

  function LoadShared(st: State, id: Id): Option<Shared> {
    Lookup(st.shared, id)
  }

  function SharedApps(st: State, id: Id): map<string, Id> {
    if id in st.apps then st.apps[id].value else map[]
  }

  /** Records sid for client and answers what the client had there before (0 when
      none); None when `until` has come. The list's end becomes `until`, earlier or
      later than it was. */
  function PutSharedApp(st: State, now: Time, id: Id, client: string, sid: Id, until: Time): (State, Option<Id>) {
    if until <= now then (st, None)
    else
      var list := SharedApps(st, id);
      var previous := if client in list then list[client] else 0;
      (st.(apps := st.apps[id := Timed(list[client := sid], until)]), Some(previous))
  }

  /** The first half of an end: the record goes. False when it was gone. */
  function DropShared(st: State, id: Id): (State, bool) {
    if id in st.shared then (st.(shared := Remove(st.shared, id)), true) else (st, false)
  }

  /** The second half: its list is taken. */
  function TakeSharedApps(st: State, id: Id): (State, map<string, Id>) {
    (st.(apps := Remove(st.apps, id)), SharedApps(st, id))
  }

  // Connection indexes

  function AddConnection(st: State, now: Time, key: IndexKey, c: Connection, until: Time): (State, bool) {
    if now < until then (st.(index := st.index[(key, c) := until]), true) else (st, false)
  }

  function Connections(st: State, key: IndexKey): set<Connection> {
    set m | m in st.index && m.0 == key :: m.1
  }

  function RemoveConnection(st: State, key: IndexKey, c: Connection): State {
    st.(index := Remove(st.index, (key, c)))
  }

  lemma AtMostOne<T>(xs: set<T>)
    requires forall x, y :: x in xs && y in xs ==> x == y
    ensures |xs| <= 1
  {
    if xs != {} {
      var x :| x in xs;
      assert xs == {x};
    }
  }

  /** A value never drawn. */
  method Draw(used: set<Id>) returns (n: Id)
    ensures n !in used
  {
    n := 0;
    var rest := used;
    while rest != {}
      invariant forall k :: k in used && k !in rest ==> k < n
    {
      var k :| k in rest;
      rest := rest - {k};
      n := if n <= k then k + 1 else n;
    }
  }
}
