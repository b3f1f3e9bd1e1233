/** What either store answers, said without its state (session/store.go): of each entry,
    the last that was kept, while its time has not come, and once where a call takes it. */
module StoreLaws {
  import opened StoreModel
  import opened StoresAgree

  datatype Kind = AFlow | ACode | ASession | AGrant | ARecord
  datatype Value =
    | OfFlow(flow: Flow) | OfCode(code: AppCode) | OfSession(sess: Session) | OfGrant(grant: RefreshGrant)
    | OfRecord(record: Shared)

  // What the store holds of an entry.
  function Found(st: State, kind: Kind, id: Id): Option<Timed<Value>> {
    match kind
    case AFlow =>
      if id in st.flows then Some(Timed(OfFlow(st.flows[id].value), st.flows[id].expires)) else None
    case ACode =>
      if id in st.codes then Some(Timed(OfCode(st.codes[id].value), st.codes[id].expires)) else None
    case ASession =>
      if id in st.sessions then Some(Timed(OfSession(st.sessions[id]), st.sessions[id].expiresAt)) else None
    case AGrant =>
      if id in st.refresh then Some(Timed(OfGrant(st.refresh[id].value), st.refresh[id].expires)) else None
    case ARecord =>
      if id in st.shared then Some(Timed(OfRecord(st.shared[id]), st.shared[id].expiresAt)) else None
  }

  predicate Lives(kept: Option<Timed<Value>>, now: Time) {
    kept.Some? && now < kept.value.expires
  }

  /** What was kept last, after one call more. A session or a shared session is kept anew
      only where none lives, and over one only while it lives; nothing is kept whose
      time has come. */
  function NextKept(kept: Option<Timed<Value>>, now: Time, call: Call, kind: Kind, id: Id): Option<Timed<Value>> {
    match call
    case SavesFlow(k, flow, ttl) => if kind == AFlow && k == id then Some(Timed(OfFlow(flow), now + ttl)) else kept
    case ConsumesFlow(k) => if kind == AFlow && k == id then None else kept
    case SavesAppCode(k, code, ttl) => if kind == ACode && k == id then Some(Timed(OfCode(code), now + ttl)) else kept
    case ConsumesAppCode(k) => if kind == ACode && k == id then None else kept
    case CreatesSession(k, sess, ttl) =>
      if kind == ASession && k == id && !Lives(kept, now)
      then Some(Timed(OfSession(sess.(expiresAt := now + ttl)), now + ttl)) else kept
    case ReplacesSession(k, sess) =>
      if kind == ASession && k == id && Lives(kept, now) && now < sess.expiresAt
      then Some(Timed(OfSession(sess), sess.expiresAt)) else kept
    case DeletesSession(k) => if kind == ASession && k == id then None else kept
    case SavesRefresh(k, grant, until) =>
      if kind == AGrant && k == id && now < until then Some(Timed(OfGrant(grant), until)) else kept
    case TakesRefresh(k) => if kind == AGrant && k == id then None else kept
    case DeletesRefresh(k) => if kind == AGrant && k == id then None else kept
    case CreatesShared(k, record) =>
      if kind == ARecord && k == id && !Lives(kept, now) && now < record.expiresAt
      then Some(Timed(OfRecord(record), record.expiresAt)) else kept
    case ReplacesShared(k, record) =>
      if kind == ARecord && k == id && Lives(kept, now) && now < record.expiresAt
      then Some(Timed(OfRecord(record), record.expiresAt)) else kept
    case EndsShared(k) => if kind == ARecord && k == id then None else kept
    case _ => kept
  }

  function LastKept(kept: Option<Timed<Value>>, now: Time, calls: seq<Call>, kind: Kind, id: Id)
    : Option<Timed<Value>>
    decreases |calls|
  {
    if calls == [] then kept
    else LastKept(NextKept(kept, now, calls[0], kind, id), NextNow(now, calls[0]), calls[1..], kind, id)
  }

  predicate Holds(st: State, now: Time, kind: Kind, id: Id, kept: Option<Timed<Value>>) {
    Found(st, kind, id) == if Lives(kept, now) then kept else None
  }

  lemma ClockHolds(st: State, now: Time, time: Time, kind: Kind, id: Id, kept: Option<Timed<Value>>)
    requires now <= time && Holds(st, now, kind, id, kept)
    ensures Holds(Age(st, time), time, kind, id, kept)
  {}

  lemma SessionCallHolds(st: State, now: Time, call: Call, kind: Kind, id: Id, kept: Option<Timed<Value>>)
    requires OfSessions(call)
    requires Fair(now, call) && !call.Clock? && Holds(st, now, kind, id, kept)
    ensures Holds(Does(st, now, call).0, now, kind, id, NextKept(kept, now, call, kind, id))
  {}

  lemma GrantCallHolds(st: State, now: Time, call: Call, kind: Kind, id: Id, kept: Option<Timed<Value>>)
    requires OfRefresh(call)
    requires Fair(now, call) && !call.Clock? && Holds(st, now, kind, id, kept)
    ensures Holds(Does(st, now, call).0, now, kind, id, NextKept(kept, now, call, kind, id))
  {}

  lemma MakingCallHolds(st: State, now: Time, call: Call, kind: Kind, id: Id, kept: Option<Timed<Value>>)
    requires call.CreatesShared?
    requires Fair(now, call) && !call.Clock? && Holds(st, now, kind, id, kept)
    ensures Holds(Does(st, now, call).0, now, kind, id, NextKept(kept, now, call, kind, id))
  {}

  lemma RecordCallHolds(st: State, now: Time, call: Call, kind: Kind, id: Id, kept: Option<Timed<Value>>)
    requires call.ReplacesShared? || call.LoadsShared?
    requires Fair(now, call) && !call.Clock? && Holds(st, now, kind, id, kept)
    ensures Holds(Does(st, now, call).0, now, kind, id, NextKept(kept, now, call, kind, id))
  {}

  lemma ListCallHolds(st: State, now: Time, call: Call, kind: Kind, id: Id, kept: Option<Timed<Value>>)
    requires call.PutsSharedApp? || call.ListsSharedApps? || call.EndsShared?
    requires Fair(now, call) && !call.Clock? && Holds(st, now, kind, id, kept)
    ensures Holds(Does(st, now, call).0, now, kind, id, NextKept(kept, now, call, kind, id))
  {}

  lemma OtherCallHolds(st: State, now: Time, call: Call, kind: Kind, id: Id, kept: Option<Timed<Value>>)
    requires !OfSessions(call) && !OfRefresh(call) && !OfShared(call)
    requires Fair(now, call) && !call.Clock? && Holds(st, now, kind, id, kept)
    ensures Holds(Does(st, now, call).0, now, kind, id, NextKept(kept, now, call, kind, id))
  {}

  lemma {:induction false} HoldsAfter(
    st: State, now: Time, calls: seq<Call>, kind: Kind, id: Id, kept: Option<Timed<Value>>)
    requires AllFair(now, calls) && Holds(st, now, kind, id, kept)
    ensures var (t, later) := After(st, now, calls); Holds(t, later, kind, id, LastKept(kept, now, calls, kind, id))
    decreases |calls|
  {
    if calls != [] {
      var call := calls[0];
      if call.Clock? {
        ClockHolds(st, now, call.time, kind, id, kept);
      } else if OfSessions(call) {
        SessionCallHolds(st, now, call, kind, id, kept);
      } else if OfRefresh(call) {
        GrantCallHolds(st, now, call, kind, id, kept);
      } else if call.CreatesShared? {
        MakingCallHolds(st, now, call, kind, id, kept);
      } else if call.ReplacesShared? || call.LoadsShared? {
        RecordCallHolds(st, now, call, kind, id, kept);
      } else if call.PutsSharedApp? || call.ListsSharedApps? || call.EndsShared? {
        ListCallHolds(st, now, call, kind, id, kept);
      } else {
        OtherCallHolds(st, now, call, kind, id, kept);
      }
      HoldsAfter(Does(st, now, call).0, NextNow(now, call), calls[1..], kind, id, NextKept(kept, now, call, kind, id));
    }
  }

  /** After any calls, what a store holds of an entry is what was kept of it last, until
      its time comes; and nothing of what was taken, deleted or ended since, or never
      kept. */
  lemma LastKeptIsHeld(start: Time, calls: seq<Call>, kind: Kind, id: Id)
    requires AllFair(start, calls)
    ensures var (st, now) := After(EMPTY, start, calls);
            var kept := LastKept(None, start, calls, kind, id);
            Found(st, kind, id) == if Lives(kept, now) then kept else None
  {
    HoldsAfter(EMPTY, start, calls, kind, id, None);
  }
}
