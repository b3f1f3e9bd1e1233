/** What every action of the shared-session machine keeps. */
module SharedInvariant {
  import opened StoreModel
  import opened SharedWays
  import opened Memberships
  import opened SharedMachine
  import opened SignInAge

  predicate OwnKey(p: Past, sid: Id, key: Id) {
    key in p.owner && p.owner[key] == sid
  }

  /** A way of `subject`'s: a sign-in of theirs was completed when it says, and it
      ends one session lifetime later. */
  predicate WayOk(c: Config, p: Past, subject: string, w: Way) {
    (subject, w.signedIn) in p.signIns && w.ends == w.signedIn + c.ttl
  }

  ghost predicate RecordOk(c: Config, p: Past, subject: string, sh: Shared) {
    && sh.subject == subject && InTime(sh.ways)
    && forall w :: w in sh.ways ==> WayOk(c, p, subject, w) && w.ends <= sh.expiresAt
  }

  predicate IsShared(p: Past, id: Id, subject: string) {
    id in p.people && p.people[id] == subject
  }

  /** A way rests on its basis, whose moment the clock has read; the ways reused were in
      the order of their sign-ins. */
  ghost predicate BasisOk(b: Basis, way: Way) {
    RestsOn(b, way) && FIRST <= b.at && (b.Reused? ==> InTime(b.ways))
  }

  ghost predicate BirthOk(c: Config, p: Past, b: Birth) {
    IsShared(p, b.shared, b.subject) && WayOk(c, p, b.subject, b.way) && BasisOk(b.basis, b.way)
  }

  predicate IsBorn(p: Past, sid: Id, b: Birth) {
    sid in p.born && p.born[sid] == b
  }

  /** A copy of session sid: as it was created; and from its one code exchange on,
      for the client, key and tenant that bound it. */
  predicate SessionOk(p: Past, sid: Id, sess: Session) {
    && sid in p.born && sess.subject == p.born[sid].subject && sess.shared == p.born[sid].shared
    && sess.loginMethod == p.born[sid].way.loginMethod && sess.authTime == p.born[sid].way.authTime
    && sess.expiresAt == p.born[sid].way.ends
    && (sess.refreshKey == 0 || OwnKey(p, sid, sess.refreshKey))
  }

  predicate Unbound(sess: Session) {
    sess.thumbprint == ""
  }

  predicate BoundAs(p: Past, sid: Id, sess: Session) {
    sid in p.bound && p.bound[sid] == Binding(sess.clientID, sess.thumbprint, sess.tenant)
  }

  predicate GrantOk(p: Past, key: Id, g: RefreshGrant) {
    && g.sessionID in p.born && OwnKey(p, g.sessionID, key) && g.clientID == p.born[g.sessionID].client
  }

  predicate CodeOk(p: Past, code: AppCode) {
    code.sessionID in p.born && code.clientID == p.born[code.sessionID].client
  }

  /** What a token carries, of a session bound as `b`: the bound client and key; once
      a tenant was chosen, that tenant and one membership there whole. */
  ghost predicate TokenFits(c: Config, t: Token, b: Binding) {
    && t.client == b.client && t.thumbprint == b.thumbprint
    && (b.tenant != "" ==>
          && t.outcome.tenant == b.tenant && t.outcome.choices == []
          && exists m :: m in t.asked && m.tenantID == b.tenant && m.scopes == t.outcome.scopes)
    && (t.client in c.membersOnly && t.outcome.tenant == "" && t.outcome.choices != [] ==> t.outcome.scopes == [])
  }

  ghost predicate TokenOk(c: Config, p: Past, t: Token) {
    t.sid in p.bound && TokenFits(c, t, p.bound[t.sid])
  }

  // Has made a session; and holds the one credential of that, or of the one it was
  // sent for.

  predicate Makes(q: Request) {
    (q.kind == Silent || q.kind == SignIn) && q.sid != 0
  }

  predicate Holder(q: Request) {
    Makes(q) || q.kind == Exchange
  }

  predicate InEnding(pc: PC) {
    pc == Ending || pc == EndingGrant || pc == EndingSession
  }

  // Where a request is, or where it goes on when it has ended what it had to.
  function Place(q: Request): PC {
    if InEnding(q.pc) || q.pc == Dropping || q.pc == Taking then q.after else q.pc
  }

  // A sign-in or silent answer, by where it is.
  ghost predicate SigningOk(c: Config, p: Past, q: Request) {
    && WayOk(c, p, q.subject, q.way) && BasisOk(q.basis, q.way)
    && (q.sid != 0 ==>
          && IsBorn(p, q.sid, Birth(q.subject, q.shared, q.client, q.way, q.basis))
          && IsShared(p, q.shared, q.subject))
    && (q.pc == Joining || q.pc == Creating || q.pc == Recording ==>
          IsShared(p, q.shared, q.subject) && RecordOk(c, p, q.subject, q.record) && q.way.ends <= q.record.expiresAt)
    && (q.pc == Joining || Place(q) == MakingShared ==> q.kind == SignIn && q.sid == 0)
    && (q.pc == Creating ==> q.sid == 0)
    && (q.pc == Recording ==> q.sid != 0)
    && (Place(q) == Checking ==> q.kind == Silent && q.sid != 0)
    && (Place(q) == SavingCode ==> q.sid != 0)
    && (Place(q) == SavingCode && InEnding(q.pc) ==> q.kind == SignIn)
    && (match q.pc
        case Joining | MakingShared | Creating | Recording | Checking | SavingCode => true
        case Ending | EndingGrant | EndingSession =>
          q.after == MakingShared || q.after == Checking || q.after == SavingCode || q.after == Over
        case Dropping | Taking => q.after == MakingShared
        case _ => false)
  }

  ghost predicate ExchangeOk(c: Config, p: Past, q: Request) {
    && q.sid in p.born && q.client == p.born[q.sid].client && q.thumbprint != ""
    && (q.pc == SavingGrant || q.pc == SavingBinding ==> SessionOk(p, q.sid, q.sess))
    && (q.pc == SavingBinding ==>
          && q.sess.clientID == q.client && q.sess.thumbprint == q.thumbprint && q.token.sid == q.sid
          && (q.sess.tenant != "" ==> q.client in c.membersOnly)
          && TokenFits(c, q.token, Binding(q.client, q.thumbprint, q.sess.tenant)))
    && (q.pc == Redeeming || q.pc == SavingGrant || q.pc == SavingBinding)
  }

  /** What is true of a request in flight by what has happened. */
  ghost predicate RequestOk(c: Config, p: Past, q: Request) {
    && q.ending <= p.born.Keys && (!InEnding(q.pc) ==> q.ending == {})
    && (q.pc == Taking ==> q.shared in p.ends)
    && (q.pc == EndingGrant || q.pc == EndingSession ==> q.target in q.ending)
    && match q.kind
       case Silent => SigningOk(c, p, q)
       case SignIn => SigningOk(c, p, q)
       case Exchange => ExchangeOk(c, p, q)
       case Refresh => q.pc == Renewing && q.sid in p.born && q.client == p.born[q.sid].client
       case SignOut =>
         && (match q.pc
             case Revoking | RevokingSession | RevokingGrant | Dropping | Taking | Ending | EndingGrant
                | EndingSession => q.after == Over
             case _ => false)
  }

  ghost predicate Ids(s: Sys) {
    && 0 in s.past.used && FIRST <= s.now && 0 < s.config.ttl
    && s.past.people.Keys <= s.past.used && s.past.born.Keys <= s.past.used && s.past.owner.Keys <= s.past.used
    && s.store.codes.Keys <= s.past.used
    && 0 !in s.past.people && 0 !in s.past.born && 0 !in s.past.owner
    && s.store.shared.Keys <= s.past.people.Keys
    && (forall x :: x in s.past.signIns ==> 0 < x.1 <= s.now)
    && (forall k :: k in s.store.sessions ==> s.now < s.store.sessions[k].expiresAt)
  }

  ghost predicate StoreOk(s: Sys) {
    && (forall k :: k in s.store.codes ==> CodeOk(s.past, s.store.codes[k].value))
    && (forall k :: k in s.store.sessions ==> SessionOk(s.past, k, s.store.sessions[k]))
    && (forall k :: k in s.store.refresh ==> GrantOk(s.past, k, s.store.refresh[k].value))
    && (forall k :: k in s.store.shared ==>
                      k in s.past.people && RecordOk(s.config, s.past, s.past.people[k], s.store.shared[k]))
  }

  // A stored session is bound exactly from its code exchange on.
  predicate BindingStands(s: Sys, sid: Id)
    requires sid in s.store.sessions
  {
    if sid in s.past.bound then BoundAs(s.past, sid, s.store.sessions[sid]) else Unbound(s.store.sessions[sid])
  }

  ghost predicate Bindings(s: Sys) {
    forall k :: k in s.store.sessions ==> BindingStands(s, k)
  }

  ghost predicate TokensOk(c: Config, p: Past) {
    forall t :: t in p.tokens ==> TokenOk(c, p, t)
  }

  predicate BoundOk(c: Config, p: Past, sid: Id)
    requires sid in p.bound
  {
    && sid in p.born && p.bound[sid].client == p.born[sid].client && p.bound[sid].thumbprint != ""
    && (p.bound[sid].tenant != "" ==> p.bound[sid].client in c.membersOnly)
  }

  ghost predicate PastOk(c: Config, p: Past) {
    && (forall sid :: sid in p.born ==> BirthOk(c, p, p.born[sid]))
    && (forall sid :: sid in p.bound ==> BoundOk(c, p, sid))
    && (forall k :: k in p.owner ==> p.owner[k] in p.born)
    && TokensOk(c, p)
    && p.covered <= p.born.Keys
    && (forall id :: id in p.ends ==> id in p.people && p.ends[id] == 1)
  }

  // A list names its own app sessions, each under its own client.
  predicate ListOk(p: Past, id: Id, list: map<string, Id>) {
    && id in p.people
    && forall client :: client in list ==>
         list[client] in p.born && p.born[list[client]].shared == id && p.born[list[client]].client == client
  }

  ghost predicate Lists(s: Sys) {
    forall id :: id in s.store.apps ==> ListOk(s.past, id, s.store.apps[id].value)
  }

  ghost predicate RightAt(s: Sys, r: nat) {
    r in s.reqs && RequestOk(s.config, s.past, s.reqs[r])
  }

  ghost predicate RequestsOk(s: Sys) {
    forall r :: r in s.reqs ==> RightAt(s, r)
  }

  // A shared session ended is there no more.
  ghost predicate EndedGone(s: Sys) {
    forall id :: id in s.past.ends ==> id !in s.store.shared
  }

  datatype Credential = Code(id: Id) | Held(r: nat)

  predicate Holds(s: Sys, c: Credential, sid: Id) {
    match c
    case Code(id) => id in s.store.codes && s.store.codes[id].value.sessionID == sid
    case Held(r) => r in s.reqs && Holder(s.reqs[r]) && s.reqs[r].sid == sid
  }

  /** A session has one code, exchanged once. */
  ghost predicate Linear(s: Sys) {
    && (forall c, d, sid :: Holds(s, c, sid) && Holds(s, d, sid) ==> c == d)
    && (forall c, sid :: Holds(s, c, sid) ==> sid !in s.past.bound)
  }

  ghost predicate Sound(s: Sys) {
    && Ids(s) && StoreOk(s) && Bindings(s) && PastOk(s.config, s.past) && Lists(s) && RequestsOk(s) && EndedGone(s)
    && Linear(s)
  }

  // Who owes the ending of which session.

  predicate Owes(s: Sys, r: nat, sid: Id) {
    r in s.reqs && sid in s.reqs[r].ending
  }

  predicate Takes(s: Sys, r: nat, id: Id) {
    r in s.reqs && s.reqs[r].pc == Taking && s.reqs[r].shared == id
  }

  predicate Listed(s: Sys, sid: Id) {
    && sid in s.past.born
    && var b := s.past.born[sid];
    && b.shared in s.store.apps && b.client in s.store.apps[b.shared].value
    && s.store.apps[b.shared].value[b.client] == sid
  }

  /** Gone, or some request is to end it, or its shared session's list names it. */
  ghost predicate Recorded(s: Sys, sid: Id) {
    sid !in s.store.sessions || (exists r :: Owes(s, r, sid)) || Listed(s, sid)
  }

  /** The same, where a list that names it is one a sign-out still takes. */
  ghost predicate Reached(s: Sys, sid: Id) {
    || sid !in s.store.sessions || (exists r :: Owes(s, r, sid))
    || (Listed(s, sid)
        && (s.past.born[sid].shared !in s.past.ends || exists r :: Takes(s, r, s.past.born[sid].shared)))
  }

  // No listed session outlives its list.
  ghost predicate ListsLast(s: Sys) {
    forall sid :: Listed(s, sid) && sid in s.store.sessions ==>
                    s.store.sessions[sid].expiresAt <= s.store.apps[s.past.born[sid].shared].expires
  }

  predicate ToCheck(s: Sys, r: nat) {
    r in s.reqs && Place(s.reqs[r]) == Checking
  }

  predicate Answering(s: Sys, r: nat) {
    r in s.reqs && s.reqs[r].kind == Silent && s.reqs[r].pc == SavingCode
  }

  /** While nothing failed and no list was cut short: every session covered, or
      about to be, is reached by any sign-out of its shared session. */
  ghost predicate SignOuts(s: Sys) {
    !s.past.faulty && !s.past.shortened ==>
      && ListsLast(s)
      && (forall r :: ToCheck(s, r) ==> Recorded(s, s.reqs[r].sid))
      && (forall r :: Answering(s, r) ==> Reached(s, s.reqs[r].sid))
      && (forall sid :: sid in s.past.covered ==> Reached(s, sid))
  }

  // Where a sign-out looks, and where none does.

  /** A list names it, or some request is to end it. */
  ghost predicate Known(s: Sys, sid: Id) {
    Listed(s, sid) || exists o :: Owes(s, o, sid)
  }

  // q has recorded a session of the same client in place of one born as b.
  predicate Replaces(q: Request, b: Birth) {
    Makes(q) && q.shared == b.shared && q.client == b.client
  }

  /** No sign-out ends it: its shared session has ended and its list been taken, and
      who is to end it recorded a later session of its client in its place. */
  ghost predicate OutOfReach(s: Sys, sid: Id) {
    && sid in s.past.born
    && var b := s.past.born[sid];
    && b.shared in s.past.ends && (forall o :: !Takes(s, o, b.shared))
    && (forall o :: Owes(s, o, sid) ==> Replaces(s.reqs[o], b))
  }

  predicate ToRecord(s: Sys, r: nat) {
    r in s.reqs && s.reqs[r].pc == Recording
  }

  /** A session not yet recorded is known to no list and no request; and one a sign-in
      recorded too late is out of reach. */
  ghost predicate Judged(s: Sys) {
    && (forall r :: ToRecord(s, r) ==> !Known(s, s.reqs[r].sid))
    && (forall sid :: sid in s.past.missed ==> OutOfReach(s, sid))
  }

  ghost predicate Inv(s: Sys) {
    Sound(s) && SignOuts(s) && Judged(s)
  }
}
