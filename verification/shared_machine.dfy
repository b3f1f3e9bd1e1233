/** Signing in from, joining and ending a browser's shared session (routes/shared.go,
    routes/authorize.go saveSignedIn, routes/refresh.go, routes/logout.go,
    routes/token.go) as a state machine: one action is one store call, requests in
    any number interleave freely, and a store call that fails stops its request, or
    leaves it to go on as the code has it go on. A request reads the clock once. */
module SharedMachine {
  import opened StoreModel
  import opened SharedWays
  import opened Memberships
  import opened SignInAge

  const APP_CODE_TTL: Time := 60_000

  // The clock's first reading here: its first second, where a time in seconds is 0,
  // which means unknown, is over.
  const FIRST: Time := 1000

  // Which handler a request runs, and the store call it makes next.
  datatype Kind = Silent | SignIn | Exchange | Refresh | SignOut

  datatype PC =
    | Joining | MakingShared                                  // joinShared
    | Creating | Recording | Checking | SavingCode            // a new app session
    | Dropping | Taking                                       // endShared
    | Ending | EndingGrant | EndingSession                    // endAppSession, of each in `ending`
    | Redeeming | SavingGrant | SavingBinding                 // code exchange
    | Renewing                                                // refresh
    | Revoking | RevokingSession | RevokingGrant              // revoke
    | Over

  // What a session was created as, and on what; and what its one code exchange bound
  // it to.
  datatype Birth = Birth(subject: string, shared: Id, client: string, way: Way, basis: Basis)
  datatype Binding = Binding(client: string, thumbprint: string, tenant: string)

  // A user token: its session, client and key; the memberships the register
  // answered for it, the tenant named, and what was made of them.
  datatype Token = Token(
    sid: Id, client: string, thumbprint: string, asked: seq<Membership>, hint: string, outcome: Outcome)

  // A request in flight and its local variables: the session it made or was sent
  // for, its client, person and key proof; the shared session it is about, the way
  // it rests on, for what reason, and the record it has read; what it still has to
  // end, and where it goes on when that is done; the token it is to answer.
  datatype Request = Request(
    kind: Kind, pc: PC, after: PC, sid: Id, client: string, subject: string, thumbprint: string,
    shared: Id, way: Way, basis: Basis, record: Shared,
    ending: set<Id>, target: Id, targetKey: Id, key: Id, sess: Session, token: Token)

  const NO_WAY := Way("", 0, 0, 0)
  const NO_BASIS := Proved(ByCard(Ask(false, false, false, false, None)), 0)
  const NO_SHARED := Shared("", [], 0)
  const NO_SESSION := Session("", "", "", "", [], "", "", 0, 0, 0, 0, 0, 0)
  const NO_TOKEN := Token(0, "", "", [], "", Outcome([], "", []))

  function Begin(kind: Kind, pc: PC): Request {
    Request(kind, pc, Over, 0, "", "", "", 0, NO_WAY, NO_BASIS, NO_SHARED, {}, 0, 0, 0, NO_SESSION, NO_TOKEN)
  }

  // What has happened so far. Actions read of it only which random values were
  // drawn; the rest is history.
  datatype Past = Past(
    used: set<Id>,
    signIns: set<(string, Time)>,  // a person's sign-in completed at a moment
    people: map<Id, string>,       // by shared session
    born: map<Id, Birth>,          // by app session
    ends: multiset<Id>,            // shared sessions ended
    covered: set<Id>,              // sessions a silent answer gave a code for, or a sign-in
                                   // recorded where a sign-out still looks
    missed: set<Id>,               // sessions a sign-in recorded where none looks any more
    bound: map<Id, Binding>,       // by app session
    owner: map<Id, Id>,            // session of a refresh token
    tokens: set<Token>,
    faulty: bool,                  // some request has crashed or met a store error
    shortened: bool)               // some list of app sessions was to end before one of them

  // The configured SESSION_TTL, and the clients whose people need a membership.
  datatype Config = Config(ttl: Time, membersOnly: set<string>)

  datatype Sys = Sys(config: Config, now: Time, store: State, reqs: map<nat, Request>, past: Past)

  function Start(config: Config): Sys {
    Sys(config, FIRST, EMPTY, map[], Past({0}, {}, map[], map[], multiset{}, {}, {}, map[], map[], {}, false, false))
  }

  datatype Action =
    | Tick(time: Time)
    | BeginSilent(r: nat, shared: Id, client: string, ask: SilentAsk, way: Way)
    | BeginSignIn(r: nat, subject: string, client: string, loginMethod: string, proof: Proof, shared: Id)
    | Join(r: nat)
    | MakeShared(r: nat, drawn: Id)
    | Create(r: nat, drawn: Id)
    | Record(r: nat)
    | Check(r: nat)
    | SaveCode(r: nat, drawn: Id)
    | Drop(r: nat)
    | Take(r: nat)
    | PickEnd(r: nat, target: Id)
    | EndGrant(r: nat)
    | EndSession(r: nat)
    | EndOver(r: nat)
    | Logout(r: nat, shared: Id)
    | SpendCode(r: nat, presented: Id, client: string, thumbprint: string)
    | LoadForCode(r: nat)
    | SaveGrant(r: nat, drawn: Id, asked: seq<Membership>, hint: string, baseline: seq<string>)
    | SaveBinding(r: nat)
    | PresentRefresh(r: nat, presented: Id, client: string, thumbprint: string)
    | Renew(r: nat, asked: seq<Membership>, baseline: seq<string>)
    | PresentRevoke(r: nat, presented: Id, client: string, thumbprint: string)
    | LoadForRevoke(r: nat)
    | RevokeSession(r: nat)
    | RevokeGrant(r: nat)
    | Refuse(r: nat)
    | Falter(r: nat)
    | Crash(r: nat)

  // The request an action moves on; a tick moves none.
  function Actor(a: Action): nat {
    if a.Tick? then 0 else a.r
  }

  // A sign-in or silent answer as far as its app session; that session; the end of a
  // shared session, and of its apps; a code's exchange; else a refresh, a revocation,
  // or what stops any of them.
  predicate Begins(a: Action) {
    || a.Tick? || a.BeginSilent? || a.BeginSignIn? || a.Join? || a.MakeShared?
  }

  predicate SignsIn(a: Action) {
    || a.Create? || a.Record? || a.Check? || a.SaveCode?
  }

  predicate EndsShared(a: Action) {
    || a.Drop? || a.Take? || a.Logout?
  }

  predicate EndsApps(a: Action) {
    || a.PickEnd? || a.EndGrant? || a.EndSession? || a.EndOver?
  }

  predicate OfCodes(a: Action) {
    || a.SpendCode? || a.LoadForCode? || a.SaveGrant? || a.SaveBinding?
  }

  function Goes(s: Sys, r: nat, q: Request, store: State): Sys {
    s.(reqs := s.reqs[r := q], store := store)
  }

  function Done(s: Sys, r: nat, store: State): Sys {
    s.(reqs := Remove(s.reqs, r), store := store)
  }

  predicate At(s: Sys, r: nat, pc: PC) {
    r in s.reqs && s.reqs[r].pc == pc
  }

  // q goes on to end the sessions in xs, and then at `after`.
  function Ends(q: Request, xs: set<Id>, after: PC): Request {
    q.(pc := Ending, ending := xs, after := after)
  }

  predicate TickStep(s: Sys, time: Time, t: Sys) {
    s.now <= time && t == s.(now := time, store := Age(s.store, time))
  }

  /** answerFromShared: the record is read, and one of its ways answers the request. */
  predicate BeginSilentStep(s: Sys, r: nat, shared: Id, client: string, ask: SilentAsk, way: Way, t: Sys) {
    && r !in s.reqs
    && var sh := LoadShared(s.store, shared);
    && sh.Some? && Answers(sh.value.ways, ask, s.now, way)
    && t == Goes(s, r, Begin(Silent, Creating).(
                         client := client, subject := sh.value.subject, shared := shared, way := way,
                         basis := Reused(ask, sh.value.ways, s.now), record := sh.value), s.store)
  }

  // The way a sign-in adds, once its time is known.
  function NewWay(s: Sys, loginMethod: string, authTime: int): Way {
    Way(loginMethod, authTime, s.now, s.now + s.config.ttl)
  }

  /** joinShared, once a sign-in is complete and not refused for its age: the
      browser's shared session is the same person's, another's, or none (0). */
  predicate BeginSignInStep(
    s: Sys, r: nat, subject: string, client: string, loginMethod: string, proof: Proof, shared: Id, t: Sys)
  {
    && r !in s.reqs && ProofOk(proof, s.now) && Moment(proof, s.now).Some?
    && var way := NewWay(s, loginMethod, Moment(proof, s.now).value);
    && var q := Begin(SignIn, MakingShared).(
                  client := client, subject := subject, way := way, basis := Proved(proof, s.now));
    && var sh := LoadShared(s.store, shared);
    && (shared != 0 ==> sh.Some?)
    && t == Goes(s, r,
                 if shared == 0 then q
                 else if sh.value.subject == subject
                 then q.(pc := Joining, shared := shared, record := Kept(sh.value, way))
                 else q.(pc := Dropping, after := MakingShared, shared := shared),
                 s.store).(past := s.past.(signIns := s.past.signIns + {(subject, s.now)}))
  }

  predicate JoinStep(s: Sys, r: nat, t: Sys) {
    && At(s, r, Joining)
    && var q := s.reqs[r];
    && var (store, ok) := ReplaceShared(s.store, s.now, q.shared, q.record);
    && t == if ok then Goes(s, r, q.(pc := Creating), store) else Goes(s, r, q.(pc := MakingShared), s.store)
  }

  predicate MakeSharedStep(s: Sys, r: nat, id: Id, t: Sys) {
    && At(s, r, MakingShared) && id !in s.past.used
    && var q := s.reqs[r];
    && var record := Kept(Shared(q.subject, [], 0), q.way);
    && var (store, made) := CreateShared(s.store, s.now, id, record);
    && t == if made.Created?
            then Goes(s, r, q.(pc := Creating, shared := id, record := record), store).(
                   past := s.past.(used := s.past.used + {id}, people := s.past.people[id := q.subject]))
            else Done(s, r, s.store)
  }

  /** CreateSession, for what is left of the way by the request's one reading of the
      clock. If the way has ended meanwhile the session never lives. */
  predicate CreateStep(s: Sys, r: nat, sid: Id, t: Sys) {
    && At(s, r, Creating) && sid !in s.past.used
    && var q := s.reqs[r];
    && var sess := NO_SESSION.(subject := q.subject, loginMethod := q.way.loginMethod, authTime := q.way.authTime,
                               shared := q.shared, expiresAt := q.way.ends);
    && var store := if s.now < q.way.ends then s.store.(sessions := s.store.sessions[sid := sess]) else s.store;
    && t == Goes(s, r, q.(pc := Recording, sid := sid), store).(
              past := s.past.(used := s.past.used + {sid},
                              born := s.past.born[sid := Birth(q.subject, q.shared, q.client, q.way, q.basis)]))
  }

  // Whether a list, written by `client`, is to end before another client's live
  // session in it does.
  predicate CutsShort(s: Sys, id: Id, client: string, until: Time) {
    var list := SharedApps(s.store, id);
    exists c :: c in list && c != client
                && list[c] in s.store.sessions && until < s.store.sessions[list[c]].expiresAt
  }

  // A request ended the shared session and has yet to take its list.
  predicate BeingTaken(s: Sys, id: Id) {
    exists o :: o in s.reqs && s.reqs[o].pc == Taking && s.reqs[o].shared == id
  }

  // A sign-out is still to look at the list of this shared session, should there be one.
  predicate StillTaken(s: Sys, id: Id) {
    id !in s.past.ends || BeingTaken(s, id)
  }

  // A sign-in's session that a sign-out reaches, or that is not there; and one that is
  // listed where no sign-out looks any more.

  function NowCovered(s: Sys, q: Request, listed: bool): set<Id> {
    if q.kind == SignIn && (q.sid !in s.store.sessions || (listed && StillTaken(s, q.shared))) then {q.sid} else {}
  }

  function NowMissed(s: Sys, q: Request): set<Id> {
    if q.kind == SignIn && q.sid in s.store.sessions && !StillTaken(s, q.shared) then {q.sid} else {}
  }

  function WithNext(q: Request, ending: set<Id>): Request {
    Ends(q, ending, if q.kind == Silent then Checking else SavingCode)
  }

  predicate ListedStep(s: Sys, r: nat, t: Sys)
    requires r in s.reqs
  {
    var q := s.reqs[r];
    var until := q.record.expiresAt;
    var (store, previous) := PutSharedApp(s.store, s.now, q.shared, q.client, q.sid, until);
    && previous.Some?
    && var before := if previous.value == 0 || previous.value == q.sid then {} else {previous.value};
    && t == Goes(s, r, WithNext(q, before), store).(
              past := s.past.(shortened := s.past.shortened || CutsShort(s, q.shared, q.client, until),
                              covered := s.past.covered + NowCovered(s, q, true),
                              missed := s.past.missed + NowMissed(s, q)))
  }

  predicate UnlistedStep(s: Sys, r: nat, t: Sys)
    requires r in s.reqs
  {
    var q := s.reqs[r];
    t == Goes(s, r, if q.kind == Silent then Ends(q, {q.sid}, Over) else q.(pc := SavingCode), s.store).(
           past := s.past.(covered := s.past.covered + NowCovered(s, q, false)))
  }

  /** addSharedApp: the session is listed, and the one its client had there before
      is to be ended; or not, its end having come. A silent answer that could not be
      listed ends its own; a sign-in goes on all the same. */
  predicate RecordStep(s: Sys, r: nat, t: Sys) {
    && At(s, r, Recording)
    && if s.now < s.reqs[r].record.expiresAt then ListedStep(s, r, t) else UnlistedStep(s, r, t)
  }

  /** sharedLive: the answer stands only if the record is still there. */
  predicate CheckStep(s: Sys, r: nat, t: Sys) {
    && At(s, r, Checking)
    && var q := s.reqs[r];
    && t == Goes(s, r, if LoadShared(s.store, q.shared).Some? then q.(pc := SavingCode) else Ends(q, {q.sid}, Over),
                 s.store)
  }

  predicate SaveCodeStep(s: Sys, r: nat, code: Id, t: Sys) {
    && At(s, r, SavingCode) && code !in s.past.used
    && var q := s.reqs[r];
    && var c := AppCode(q.sid, q.client, "", "", []);
    && var covered := if q.kind == Silent then s.past.covered + {q.sid} else s.past.covered;
    && t == Done(s, r, SaveAppCode(s.store, s.now, code, c, APP_CODE_TTL)).(
              past := s.past.(used := s.past.used + {code}, covered := covered))
  }

  // endShared: the record goes, then its list is taken; one already gone ends nothing.
  predicate DropStep(s: Sys, r: nat, t: Sys) {
    && At(s, r, Dropping)
    && var q := s.reqs[r];
    && var (store, removed) := DropShared(s.store, q.shared);
    && t == if removed
            then Goes(s, r, q.(pc := Taking), store).(past := s.past.(ends := s.past.ends + multiset{q.shared}))
            else Goes(s, r, Ends(q, {}, q.after), s.store)
  }

  predicate TakeStep(s: Sys, r: nat, t: Sys) {
    && At(s, r, Taking)
    && var q := s.reqs[r];
    && var (store, apps) := TakeSharedApps(s.store, q.shared);
    && t == Goes(s, r, Ends(q, apps.Values, q.after), store)
  }

  // endAppSession of one of them.
  predicate PickEndStep(s: Sys, r: nat, target: Id, t: Sys) {
    && At(s, r, Ending) && target in s.reqs[r].ending
    && var q := s.reqs[r];
    && var sess := LoadSession(s.store, target);
    && var key := if sess.Some? then sess.value.refreshKey else 0;
    && t == Goes(s, r, q.(pc := EndingGrant, target := target, targetKey := key), s.store)
  }

  predicate EndGrantStep(s: Sys, r: nat, t: Sys) {
    && At(s, r, EndingGrant)
    && var q := s.reqs[r];
    && t == Goes(s, r, q.(pc := EndingSession),
                 if q.targetKey == 0 then s.store else DeleteRefresh(s.store, q.targetKey))
  }

  predicate EndSessionStep(s: Sys, r: nat, t: Sys) {
    && At(s, r, EndingSession)
    && var q := s.reqs[r];
    && t == Goes(s, r, q.(pc := Ending, ending := q.ending - {q.target}), DeleteSession(s.store, q.target))
  }

  predicate EndOverStep(s: Sys, r: nat, t: Sys) {
    && At(s, r, Ending) && s.reqs[r].ending == {}
    && var q := s.reqs[r];
    && t == if q.after == Over then Done(s, r, s.store) else Goes(s, r, q.(pc := q.after), s.store)
  }

  predicate LogoutStep(s: Sys, r: nat, shared: Id, t: Sys) {
    && r !in s.reqs && LoadShared(s.store, shared).Some?
    && t == Goes(s, r, Begin(SignOut, Dropping).(shared := shared), s.store)
  }

  /** A code is spent; for another client than it was issued to, in vain. */
  predicate SpendCodeStep(s: Sys, r: nat, code: Id, client: string, thumbprint: string, t: Sys) {
    && r !in s.reqs && thumbprint != ""
    && var (store, c) := ConsumeAppCode(s.store, code);
    && t == if c.None? then s
            else if c.value.clientID != client then s.(store := store)
            else Goes(s, r, Begin(Exchange, Redeeming).(
                              sid := c.value.sessionID, client := client, thumbprint := thumbprint), store)
  }

  predicate LoadForCodeStep(s: Sys, r: nat, t: Sys) {
    && At(s, r, Redeeming)
    && var q := s.reqs[r];
    && var sess := LoadSession(s.store, q.sid);
    && t == if sess.Some? then Goes(s, r, q.(pc := SavingGrant, sess := sess.value), s.store) else Done(s, r, s.store)
  }

  /** The register has answered, and the session's refresh token is kept. */
  predicate SaveGrantStep(
    s: Sys, r: nat, key: Id, asked: seq<Membership>, hint: string, baseline: seq<string>, t: Sys)
  {
    && At(s, r, SavingGrant) && key !in s.past.used
    && var q := s.reqs[r];
    && var outcome := UserScopes(q.client in s.config.membersOnly, baseline, asked, hint);
    && if outcome.None? then t == Done(s, r, s.store)
       else
         var token := Token(q.sid, q.client, q.thumbprint, asked, hint, outcome.value);
         var sess := q.sess.(thumbprint := q.thumbprint, clientID := q.client, tenant := outcome.value.tenant,
                             refreshKey := key);
         var (store, ok) :=
           SaveRefresh(s.store, s.now, key, RefreshGrant(q.sid, q.client, false), q.sess.expiresAt);
         var past := s.past.(used := s.past.used + {key}, owner := s.past.owner[key := q.sid]);
         t == (if ok then Goes(s, r, q.(pc := SavingBinding, sess := sess, token := token), store)
               else Done(s, r, s.store)).(past := past)
  }

  predicate SaveBindingStep(s: Sys, r: nat, t: Sys) {
    && At(s, r, SavingBinding)
    && var q := s.reqs[r];
    && var (store, ok) := ReplaceSession(s.store, s.now, q.sid, q.sess);
    && var binding := Binding(q.client, q.thumbprint, q.sess.tenant);
    && t == if ok then Done(s, r, store).(
                         past := s.past.(bound := s.past.bound[q.sid := binding], tokens := s.past.tokens + {q.token}))
            else Done(s, r, s.store)
  }

  predicate PresentRefreshStep(s: Sys, r: nat, key: Id, client: string, thumbprint: string, t: Sys) {
    && r !in s.reqs
    && var grant := LoadRefresh(s.store, key);
    && t == if grant.Some? && grant.value.clientID == client
            then Goes(s, r, Begin(Refresh, Renewing).(
                              sid := grant.value.sessionID, client := client, thumbprint := thumbprint), s.store)
            else s
  }

  /** refreshBoundSession, and a token by what the register answers now. */
  predicate RenewStep(s: Sys, r: nat, asked: seq<Membership>, baseline: seq<string>, t: Sys) {
    && At(s, r, Renewing)
    && var q := s.reqs[r];
    && var sess := LoadSession(s.store, q.sid);
    && if sess.None? || sess.value.thumbprint == "" || sess.value.thumbprint != q.thumbprint
       then t == Done(s, r, s.store)
       else
         var hint := sess.value.tenant;
         var outcome := UserScopes(sess.value.clientID in s.config.membersOnly, baseline, asked, hint);
         t == if outcome.None? then Done(s, r, s.store)
              else
                var token := Token(q.sid, q.client, q.thumbprint, asked, hint, outcome.value);
                Done(s, r, s.store).(past := s.past.(tokens := s.past.tokens + {token}))
  }

  predicate PresentRevokeStep(s: Sys, r: nat, key: Id, client: string, thumbprint: string, t: Sys) {
    && r !in s.reqs
    && var grant := LoadRefresh(s.store, key);
    && t == if grant.Some? && grant.value.clientID == client
            then Goes(s, r, Begin(SignOut, Revoking).(
                              sid := grant.value.sessionID, key := key, thumbprint := thumbprint), s.store)
            else s
  }

  /** The session has ended already, or its key is proved, or the request is refused. */
  predicate LoadForRevokeStep(s: Sys, r: nat, t: Sys) {
    && At(s, r, Revoking)
    && var q := s.reqs[r];
    && var sess := LoadSession(s.store, q.sid);
    && t == if sess.None? then Goes(s, r, q.(pc := RevokingGrant), s.store)
            else if sess.value.thumbprint == "" || sess.value.thumbprint != q.thumbprint then Done(s, r, s.store)
            else Goes(s, r, q.(pc := RevokingSession, shared := sess.value.shared), s.store)
  }

  predicate RevokeSessionStep(s: Sys, r: nat, t: Sys) {
    && At(s, r, RevokingSession)
    && var q := s.reqs[r];
    && t == Goes(s, r, q.(pc := RevokingGrant), DeleteSession(s.store, q.sid))
  }

  predicate RevokeGrantStep(s: Sys, r: nat, t: Sys) {
    && At(s, r, RevokingGrant)
    && var q := s.reqs[r];
    && var store := DeleteRefresh(s.store, q.key);
    && t == if q.shared == 0 then Done(s, r, store) else Goes(s, r, q.(pc := Dropping), store)
  }

  /** A code exchange is refused by a check of what was sent, or the register. */
  predicate RefuseStep(s: Sys, r: nat, t: Sys) {
    (At(s, r, Redeeming) || At(s, r, SavingGrant) || At(s, r, Renewing)) && t == Done(s, r, s.store)
  }

  // A request goes on after a store call that failed, as where it is has it.
  function Faltered(q: Request): Request {
    match q.pc
    case Recording => if q.kind == Silent then Ends(q, {q.sid}, Over) else q.(pc := SavingCode)
    case Checking => Ends(q, {q.sid}, Over)
    case EndingGrant => q.(pc := EndingSession)
    case EndingSession => q.(pc := Ending, ending := q.ending - {q.target})
    case _ => Ends(q, {}, q.after)
  }

  /** Recording an app session, reading the record again, ending a shared session or
      one of its apps: each only logs that its call failed. (A load that fails on the
      way to an app session's end leaves its grant, as a deletion of it that fails.) */
  predicate FalterStep(s: Sys, r: nat, t: Sys) {
    && r in s.reqs
    && var q := s.reqs[r];
    && q.pc in {Recording, Checking, Dropping, Taking, EndingGrant, EndingSession}
    && t == Goes(s, r, Faltered(q), s.store).(past := s.past.(faulty := true))
  }

  predicate CrashStep(s: Sys, r: nat, t: Sys) {
    r in s.reqs && t == Done(s, r, s.store).(past := s.past.(faulty := true))
  }

  predicate Step(s: Sys, a: Action, t: Sys) {
    match a
    case Tick(time) => TickStep(s, time, t)
    case BeginSilent(r, shared, client, ask, way) => BeginSilentStep(s, r, shared, client, ask, way, t)
    case BeginSignIn(r, subject, client, loginMethod, proof, shared) =>
      BeginSignInStep(s, r, subject, client, loginMethod, proof, shared, t)
    case Join(r) => JoinStep(s, r, t)
    case MakeShared(r, drawn) => MakeSharedStep(s, r, drawn, t)
    case Create(r, drawn) => CreateStep(s, r, drawn, t)
    case Record(r) => RecordStep(s, r, t)
    case Check(r) => CheckStep(s, r, t)
    case SaveCode(r, drawn) => SaveCodeStep(s, r, drawn, t)
    case Drop(r) => DropStep(s, r, t)
    case Take(r) => TakeStep(s, r, t)
    case PickEnd(r, target) => PickEndStep(s, r, target, t)
    case EndGrant(r) => EndGrantStep(s, r, t)
    case EndSession(r) => EndSessionStep(s, r, t)
    case EndOver(r) => EndOverStep(s, r, t)
    case Logout(r, shared) => LogoutStep(s, r, shared, t)
    case SpendCode(r, presented, client, thumbprint) => SpendCodeStep(s, r, presented, client, thumbprint, t)
    case LoadForCode(r) => LoadForCodeStep(s, r, t)
    case SaveGrant(r, drawn, asked, hint, baseline) => SaveGrantStep(s, r, drawn, asked, hint, baseline, t)
    case SaveBinding(r) => SaveBindingStep(s, r, t)
    case PresentRefresh(r, presented, client, thumbprint) => PresentRefreshStep(s, r, presented, client, thumbprint, t)
    case Renew(r, asked, baseline) => RenewStep(s, r, asked, baseline, t)
    case PresentRevoke(r, presented, client, thumbprint) => PresentRevokeStep(s, r, presented, client, thumbprint, t)
    case LoadForRevoke(r) => LoadForRevokeStep(s, r, t)
    case RevokeSession(r) => RevokeSessionStep(s, r, t)
    case RevokeGrant(r) => RevokeGrantStep(s, r, t)
    case Refuse(r) => RefuseStep(s, r, t)
    case Falter(r) => FalterStep(s, r, t)
    case Crash(r) => CrashStep(s, r, t)
  }

  ghost predicate Next(s: Sys, t: Sys) {
    exists a :: Step(s, a, t)
  }

  ghost predicate NextAt(run: seq<Sys>, i: nat)
    requires i + 1 < |run|
  {
    Next(run[i], run[i + 1])
  }

  /** A run of the service under a configuration, from its first moment. */
  ghost predicate Run(run: seq<Sys>, config: Config) {
    run != [] && 0 < config.ttl && run[0] == Start(config) && forall i: nat :: i + 1 < |run| ==> NextAt(run, i)
  }
}
