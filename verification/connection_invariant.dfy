/** What every action of the connection machine keeps. */
module ConnectionInvariant {
  import opened StoreModel
  import opened ConnectionMachine

  // On the way to the connection: the session's app holds no token yet.
  predicate Pre(pc: PC) {
    match pc
    case SavingTicket | Choosing | Chosen | SavingCode | Redeeming | Redeemed | SavingConnection => true
    case _ => false
  }

  // Has spent a credential and not saved the next one.
  predicate Spent(pc: PC) {
    match pc
    case SavingTicket | Choosing | Chosen | SavingCode | Redeeming | Redeemed | SavingNext => true
    case _ => false
  }

  // Begun with something only a connected session has, and still at work on it.
  predicate Post(pc: PC) {
    match pc
    case Indexing | Renewing | Renewal | SavingNext | Marking | SavingRenewal | Revoking | Looking | SavingUse => true
    case _ => false
  }

  // Has claimed a token and not yet answered for it.
  predicate Claimed(pc: PC) {
    pc == SavingNext || pc == Marking || pc == SavingRenewal
  }

  // Goes on only because the session is gone.
  predicate AfterEnd(pc: PC) {
    match pc
    case EndingOwnGrant | EndingKeyGrant | EndingIndex | DroppingGrant | Cleaning => true
    case _ => false
  }

  // Holds a copy of a connected session that it may still write.
  predicate HoldsMade(pc: PC) {
    match pc
    case Indexing | Renewal | SavingNext | Marking | SavingRenewal | SavingUse => true
    case _ => false
  }

  // Holds a copy of its session.
  predicate HoldsCopy(pc: PC) {
    match pc
    case Chosen | Redeemed | SavingConnection | Ending | EndingOwnGrant => true
    case _ => HoldsMade(pc)
  }

  // Everything that lets its holder carry a session on: what the store keeps, and
  // a request that spent one and has yet to save the next.
  datatype Credential = Ticket(id: Id) | Code(id: Id) | Grant(id: Id) | Held(r: nat)

  predicate Unrotated(s: Sys, key: Id) {
    key in s.store.refresh && !s.store.refresh[key].value.rotated
  }

  /** Credential c carries session sid on. With `pre`, only on the way to its
      connection, the step that makes it included. */
  predicate Holds(s: Sys, c: Credential, sid: Id, pre: bool) {
    match c
    case Ticket(id) => id in s.store.flows && s.store.flows[id].value.sessionID == sid
    case Code(id) => id in s.store.codes && s.store.codes[id].value.sessionID == sid
    case Grant(id) => !pre && Unrotated(s, id) && s.store.refresh[id].value.sessionID == sid
    case Held(r) => r in s.reqs && s.reqs[r].sid == sid && if pre then Pre(s.reqs[r].pc) else Spent(s.reqs[r].pc)
  }

  predicate OwnKey(p: Past, sid: Id, key: Id) {
    key in p.owner && p.owner[key] == sid
  }

  predicate IsMade(p: Past, sid: Id, m: Made) {
    sid in p.connected && p.connected[sid] == m
  }

  predicate Gone(s: Sys, sid: Id) {
    sid in s.past.born && sid !in s.store.sessions
  }

  /** A copy of session sid: its person and its end are those it was created with,
      and its refresh token is its own. */
  predicate CopyOk(p: Past, sid: Id, c: Session) {
    && sid in p.born && c.subject == p.born[sid].subject && c.expiresAt == p.born[sid].ends
    && (c.refreshKey == 0 || OwnKey(p, sid, c.refreshKey))
  }

  predicate MadeOk(p: Past, sid: Id, m: Made) {
    && sid in p.born && m.subject == p.born[sid].subject && m.expiresAt == p.born[sid].ends
    && m.sid in p.named && p.named[m.sid] == sid
  }

  predicate GrantOk(p: Past, key: Id, g: Timed<RefreshGrant>) {
    && g.value.sessionID in p.born && OwnKey(p, g.value.sessionID, key)
    && g.expires == p.born[g.value.sessionID].ends && (g.value.rotated ==> key in p.marked)
  }

  predicate LineOk(p: Past, line: (IndexKey, Connection), until: Time) {
    && line.1.sessionID in p.connected
    && line == EntryOf(line.1.sessionID, p.connected[line.1.sessionID])
    && until == p.connected[line.1.sessionID].expiresAt
  }

  /** What is true of a request in flight by what has happened. */
  predicate RequestOk(p: Past, q: Request) {
    && q.sid in p.born
    && (q.key == 0 || OwnKey(p, q.sid, q.key))
    && (q.next == 0 || OwnKey(p, q.sid, q.next))
    && (HoldsCopy(q.pc) ==> CopyOk(p, q.sid, q.sess))
    && (HoldsMade(q.pc) ==> IsMade(p, q.sid, MadeOf(q.sess)))
    && (Post(q.pc) ==> q.sid in p.connected)
    && (q.pc == SavingConnection ==> MadeOk(p, q.sid, MadeOf(q.sess)))
    && (q.pc == SavingConnection || q.pc == Indexing ==> q.sess.refreshKey != 0)
    && (Claimed(q.pc) ==> q.key in p.taken && q.key != 0)
    && (q.pc == Marking || q.pc == SavingRenewal ==> q.next != 0)
    && (q.pc == SavingRenewal ==> q.key in p.marked)
    && (q.pc == DroppingGrant || q.pc == Renewing || q.pc == Renewal || q.pc == Revoking ==> q.key != 0)
    && (q.pc == Looking ==> LineOk(p, (IndexKey(q.tenant, q.assistant), Connection(q.name, q.sid)), p.born[q.sid].ends))
  }

  ghost predicate Ids(s: Sys) {
    && 0 in s.past.used && 0 < s.now
    && s.past.born.Keys <= s.past.used && s.past.owner.Keys <= s.past.used && s.past.named.Keys <= s.past.used
    && s.past.taken <= s.past.owner.Keys
    && s.store.flows.Keys <= s.past.used && s.store.codes.Keys <= s.past.used
    && 0 !in s.past.born && 0 !in s.past.owner && 0 !in s.past.named
  }

  ghost predicate StoreOk(s: Sys) {
    && (forall k :: k in s.store.flows ==> s.store.flows[k].value.sessionID in s.past.born)
    && (forall k :: k in s.store.codes ==> s.store.codes[k].value.sessionID in s.past.born)
    && (forall k :: k in s.store.sessions ==> CopyOk(s.past, k, s.store.sessions[k]))
    && (forall k :: k in s.store.refresh ==> GrantOk(s.past, k, s.store.refresh[k]))
    && (forall k :: k in s.store.index ==> LineOk(s.past, k, s.store.index[k]))
  }

  /** The stored session of a connection is the one that was made, whatever copies
      have been written over it. */
  ghost predicate SessionsMade(s: Sys) {
    forall k :: k in s.store.sessions && k in s.past.connected ==> IsMade(s.past, k, MadeOf(s.store.sessions[k]))
  }

  ghost predicate PastOk(p: Past) {
    && (forall sid :: sid in p.connected ==> MadeOk(p, sid, p.connected[sid]))
    && (forall k :: k in p.given ==> k in p.owner && p.owner[k] in p.connected)
    && (forall k :: k in p.owner ==> p.owner[k] in p.born)
    && (forall k :: k in p.marked ==> k in p.taken && OwnKey(p, p.marked[k], k))
    && (forall k :: k in p.renewals ==> k in p.marked)
    && (forall sid :: sid in p.answered ==> sid in p.connected)
    && (forall sid :: sid in p.replayed ==> sid in p.born)
  }

  /** What is true of request r: by what has happened, and that its session is gone
      where it goes on only for that. */
  predicate RightAt(s: Sys, r: nat) {
    && r in s.reqs && RequestOk(s.past, s.reqs[r])
    && (AfterEnd(s.reqs[r].pc) ==> s.reqs[r].sid !in s.store.sessions)
  }

  /** What a load of session sid answers. */
  predicate LoadsRight(s: Sys, sid: Id) {
    sid in s.store.sessions ==>
      && CopyOk(s.past, sid, s.store.sessions[sid])
      && (sid in s.past.connected ==> IsMade(s.past, sid, MadeOf(s.store.sessions[sid])))
  }

  predicate Here(s: Sys, r: nat) {
    r in s.reqs ==> RightAt(s, r) && LoadsRight(s, s.reqs[r].sid)
  }

  ghost predicate RequestsOk(s: Sys) {
    forall r :: r in s.reqs ==> RightAt(s, r)
  }

  /** At most one credential of each session; on the way to the connection, none
      of a session already connected. */
  ghost predicate Linear(s: Sys) {
    && (forall c, d, sid, pre :: Holds(s, c, sid, pre) && Holds(s, d, sid, pre) ==> c == d)
    && (forall c, sid :: Holds(s, c, sid, true) ==> sid !in s.past.connected)
  }

  ghost predicate Sound(s: Sys) {
    Ids(s) && StoreOk(s) && SessionsMade(s) && PastOk(s.past) && RequestsOk(s)
  }

  predicate ClaimedBy(s: Sys, r: nat, key: Id) {
    r in s.reqs && Claimed(s.reqs[r].pc) && s.reqs[r].key == key
  }

  /** A token claimed is never again as it was issued; one request claimed it, and
      has not answered for it yet, or one answer was given for it. */
  ghost predicate Claims(s: Sys) {
    && (forall key :: key in s.past.taken ==> !Unrotated(s, key))
    && (forall q, r, key :: ClaimedBy(s, q, key) && ClaimedBy(s, r, key) ==> q == r)
    && (forall key :: key in s.past.renewals ==> s.past.renewals[key] == 1 && key in s.past.taken)
    && (forall r, key :: ClaimedBy(s, r, key) ==> key !in s.past.renewals)
  }

  predicate Listed(s: Sys, sid: Id)
    requires sid in s.past.connected
  {
    EntryOf(sid, s.past.connected[sid]) in s.store.index
  }

  /** A connection whose token was answered is in its index while its session lives. */
  ghost predicate Found(s: Sys) {
    forall sid :: sid in s.past.answered && sid in s.store.sessions && sid in s.past.connected ==> Listed(s, sid)
  }

  /** Request r is bound to end session sid. */
  predicate Due(s: Sys, r: nat, sid: Id) {
    && r in s.reqs && s.reqs[r].sid == sid
    && (s.reqs[r].pc == Ending || (s.reqs[r].rotated && (s.reqs[r].pc == Renewing || s.reqs[r].pc == Renewal)))
  }

  ghost predicate EndsSoon(s: Sys, sid: Id) {
    sid !in s.store.sessions || exists r :: Due(s, r, sid)
  }

  predicate Stands(s: Sys, key: Id) {
    key in s.store.refresh && s.store.refresh[key].value.rotated
  }

  /** Without failures: a token marked used stays marked while its session lives,
      unless a request is bound to end that session; and once it was presented
      again, one is. */
  ghost predicate Marks(s: Sys) {
    !s.past.faulty ==>
      && (forall key :: key in s.past.marked ==> Stands(s, key) || EndsSoon(s, s.past.marked[key]))
      && (forall sid :: sid in s.past.replayed ==> EndsSoon(s, sid))
  }

  ghost predicate Inv(s: Sys) {
    Sound(s) && Linear(s) && Claims(s) && Found(s) && Marks(s)
  }

}
