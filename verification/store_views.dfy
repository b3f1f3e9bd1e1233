/** What a store whose every entry has a life of its own shows: the entries still
    living. Shared by the two stores; what a change of one entry shows is proved here. */
module StoreViews {
  import opened StoreModel

  // An assistant's connections by their ends, and the end of the index's own key.
  datatype Index = Index(ends: map<Connection, Time>, expires: Time)

  predicate Living<T>(m: map<Id, Timed<T>>, k: Id, now: Time) {
    k in m && now < m[k].expires
  }

  function Values<T>(m: map<Id, Timed<T>>, now: Time): map<Id, T> {
    map k | k in m && Living(m, k, now) :: m[k].value
  }

  type Line = (IndexKey, Connection)

  predicate Stands(indexes: map<IndexKey, Index>, now: Time, line: Line) {
    line.0 in indexes && line.1 in indexes[line.0].ends && now < indexes[line.0].ends[line.1]
  }

  function AllLines(indexes: map<IndexKey, Index>): set<Line> {
    set key, c | key in indexes && c in indexes[key].ends :: (key, c)
  }

  // The lines of all indexes that have not ended.
  function Lines(indexes: map<IndexKey, Index>, now: Time): (r: map<Line, Time>)
    ensures forall line :: line in r <==> Stands(indexes, now, line)
    ensures forall line :: line in r ==> Stands(indexes, now, line) && r[line] == indexes[line.0].ends[line.1]
  {
    var lines := AllLines(indexes);
    assert forall line: Line :: Stands(indexes, now, line) ==> (line.0, line.1) in lines;
    map line | line in lines && Stands(indexes, now, line) :: indexes[line.0].ends[line.1]
  }

  // What a change of one entry shows.

  lemma PutUnexpired<T>(m: map<Id, Timed<T>>, k: Id, v: T, expires: Time, now: Time)
    requires now < expires
    ensures Unexpired(m[k := Timed(v, expires)], now) == Unexpired(m, now)[k := Timed(v, expires)]
  {}

  lemma PutValues<T>(m: map<Id, Timed<T>>, k: Id, v: T, expires: Time, now: Time)
    requires now < expires
    ensures Values(m[k := Timed(v, expires)], now) == Values(m, now)[k := v]
  {}

  lemma RemoveUnexpired<T>(m: map<Id, Timed<T>>, k: Id, now: Time)
    ensures Unexpired(Remove(m, k), now) == Remove(Unexpired(m, now), k)
    ensures k !in Unexpired(m, now) ==> Remove(Unexpired(m, now), k) == Unexpired(m, now)
  {}

  lemma RemoveValues<T>(m: map<Id, Timed<T>>, k: Id, now: Time)
    ensures Values(Remove(m, k), now) == Remove(Values(m, now), k)
    ensures k !in Values(m, now) ==> Remove(Values(m, now), k) == Values(m, now)
  {}

  lemma AgedUnexpired<T>(m: map<Id, Timed<T>>, now: Time, time: Time)
    requires now <= time
    ensures Unexpired(m, time) == Unexpired(Unexpired(m, now), time)
  {}

  lemma AgedSessions(m: map<Id, Timed<Session>>, now: Time, time: Time)
    requires now <= time && forall k :: k in m ==> m[k].expires == m[k].value.expiresAt
    ensures var st := EMPTY.(sessions := Values(m, now)); Values(m, time) == Age(st, time).sessions
  {}

  lemma AgedShared(m: map<Id, Timed<Shared>>, now: Time, time: Time)
    requires now <= time && forall k :: k in m ==> m[k].expires == m[k].value.expiresAt
    ensures var st := EMPTY.(shared := Values(m, now)); Values(m, time) == Age(st, time).shared
  {}

  lemma AgedLines(indexes: map<IndexKey, Index>, now: Time, time: Time)
    requires now <= time
    ensures var st := EMPTY.(index := Lines(indexes, now)); Lines(indexes, time) == Age(st, time).index
  {}

  // What is kept for a lifetime ends then.

  lemma FlowSaved(st: State, now: Time, id: Id, flow: Flow, ttl: Time, until: Time)
    requires until == now + ttl
    ensures st.(flows := st.flows[id := Timed(flow, until)]) == StoreModel.SaveFlow(st, now, id, flow, ttl)
  {}

  lemma CodeSaved(st: State, now: Time, id: Id, code: AppCode, ttl: Time, until: Time)
    requires until == now + ttl
    ensures st.(codes := st.codes[id := Timed(code, until)]) == StoreModel.SaveAppCode(st, now, id, code, ttl)
  {}

  lemma SessionCreated(st: State, now: Time, sid: Id, sess: Session, lifetime: Time, until: Time)
    requires until == now + lifetime && sid !in st.sessions
    ensures (st.(sessions := st.sessions[sid := sess.(expiresAt := until)]), true)
            == StoreModel.CreateSession(st, now, sid, sess, lifetime)
  {}

  // What a change of an index shows.

  // No connection of the index outlives its key.
  predicate Covers(x: Index) {
    forall c :: c in x.ends ==> x.ends[c] <= x.expires
  }

  function LivingEnds(indexes: map<IndexKey, Index>, key: IndexKey, now: Time): map<Connection, Time> {
    if key in indexes && now < indexes[key].expires then indexes[key].ends else map[]
  }

  function WithEnds(indexes: map<IndexKey, Index>, key: IndexKey, ends: map<Connection, Time>, expires: Time)
    : map<IndexKey, Index>
  {
    if ends == map[] then Remove(indexes, key) else indexes[key := Index(ends, expires)]
  }

  lemma AddLine(indexes: map<IndexKey, Index>, now: Time, key: IndexKey, c: Connection, until: Time, expires: Time)
    requires now < until && (key in indexes ==> Covers(indexes[key]))
    ensures Lines(indexes[key := Index(LivingEnds(indexes, key, now)[c := until], expires)], now)
            == Lines(indexes, now)[(key, c) := until]
  {
    var changed := indexes[key := Index(LivingEnds(indexes, key, now)[c := until], expires)];
    assert forall line: Line :: Stands(changed, now, line) <==> line == (key, c) || Stands(indexes, now, line);
  }

  /** Dropping from an index what has ended shows nothing. */
  lemma DropEnded(indexes: map<IndexKey, Index>, now: Time, key: IndexKey, left: map<Connection, Time>, expires: Time)
    requires key in indexes
    requires forall c :: c in left <==> c in indexes[key].ends && now < indexes[key].ends[c]
    requires forall c :: c in left ==> left[c] == indexes[key].ends[c]
    ensures Lines(WithEnds(indexes, key, left, expires), now) == Lines(indexes, now)
  {
    var changed := WithEnds(indexes, key, left, expires);
    assert forall line: Line :: Stands(changed, now, line) <==> Stands(indexes, now, line);
  }

  lemma RemoveLine(indexes: map<IndexKey, Index>, now: Time, key: IndexKey, c: Connection, expires: Time)
    requires key in indexes
    ensures Lines(WithEnds(indexes, key, Remove(indexes[key].ends, c), expires), now)
            == Remove(Lines(indexes, now), (key, c))
  {
    var changed := WithEnds(indexes, key, Remove(indexes[key].ends, c), expires);
    assert forall d :: d in indexes[key].ends && d != c ==> d in Remove(indexes[key].ends, c);
    assert forall line: Line :: Stands(changed, now, line) <==> line != (key, c) && Stands(indexes, now, line);
  }

  // The same, where an index left empty is kept.
  lemma DropLine(indexes: map<IndexKey, Index>, now: Time, key: IndexKey, c: Connection)
    requires key in indexes
    ensures Lines(indexes[key := Index(Remove(indexes[key].ends, c), indexes[key].expires)], now)
            == Remove(Lines(indexes, now), (key, c))
  {
    var changed := indexes[key := Index(Remove(indexes[key].ends, c), indexes[key].expires)];
    assert forall line: Line :: Stands(changed, now, line) <==> line != (key, c) && Stands(indexes, now, line);
  }

  /** What an index answers: the connections of its living key that have not ended. */
  lemma ConnectionsShown(st: State, indexes: map<IndexKey, Index>, now: Time, key: IndexKey)
    requires st.index == Lines(indexes, now) && (key in indexes ==> Covers(indexes[key]))
    ensures StoreModel.Connections(st, key)
            == set c | c in LivingEnds(indexes, key, now) && now < LivingEnds(indexes, key, now)[c]
  {
    forall c | Stands(indexes, now, (key, c)) ensures c in StoreModel.Connections(st, key) {
      assert (key, c) in st.index;
    }
  }

  // What is left of an index when what has ended is dropped.
  function LeftAt(x: Index, now: Time): map<Connection, Time> {
    map c | c in x.ends && now < x.ends[c] :: x.ends[c]
  }

  lemma LeftIsLiving(indexes: map<IndexKey, Index>, now: Time, key: IndexKey)
    requires key in indexes && now < indexes[key].expires
    ensures LivingEnds(WithEnds(indexes, key, LeftAt(indexes[key], now), indexes[key].expires), key, now).Keys
            == set c | c in LivingEnds(indexes, key, now) && now < LivingEnds(indexes, key, now)[c]
  {}
}
