/** The life of an AI app's connection (routes/aiapp.go, routes/connections.go) as
    a state machine. Each handler is a request with a program counter: one action
    is one store call, any number of requests are in flight, and they interleave
    freely. A request that fails (a crash, or a store error) stops where it is, but
    where the code has it go on. */
module ConnectionMachine {
  import opened StoreModel

  const FLOW_TTL: Time := 600_000
  const APP_CODE_TTL: Time := 60_000
  const USED_EVERY: Time := 60_000

  // Why a connection is looked up in an assistant's index.
  datatype Purpose =
    | Exchange(subject: string, clientID: string) // appConnectionLive
    | SignOut(person: Option<string>)             // signOutOwnConnection; an administrator's: None
    | List                                        // connectionLines

  // The store call a request makes next.
  datatype PC =
    | Choosing | Chosen | SavingCode                             // assistant page
    | Redeeming | Redeemed | SavingConnection | Indexing         // code exchange
    | Renewing | Renewal | SavingNext | Marking | SavingRenewal  // refresh
    | Revoking                                                   // revoke
    | Ending | EndingOwnGrant | EndingKeyGrant | EndingIndex     // endConnection
    | DroppingGrant
    | Looking | Cleaning | SavingUse                             // findConnection and its callers
    | SavingTicket                                               // sign-in

  // A request in flight: where it is, and its local variables. `sess` is its own
  // copy of session `sid`, `key` the key of the refresh token it was sent with,
  // `rotated` what that token's grant said, `next` the key of the token it drew.
  datatype Request = Request(
    pc: PC, sid: Id, clientID: string, tenant: string, assistant: string, scopes: seq<string>,
    key: Id, rotated: bool, next: Id, sess: Session, name: Id, purpose: Purpose)

  const NO_SESSION := Session("", "", "", "", [], "", "", 0, 0, 0, 0, 0, 0)

  function Begin(pc: PC, sid: Id): Request {
    Request(pc, sid, "", "", "", [], 0, false, 0, NO_SESSION, 0, List)
  }

  // What a session was created as, and what its connection was made as.
  datatype Birth = Birth(subject: string, ends: Time)
  datatype Made = Made(
    subject: string, clientID: string, tenant: string, assistant: string, appScopes: seq<string>,
    sid: Id, expiresAt: Time)

  // What has happened so far. Actions read of it only which random values were
  // drawn and which refresh tokens were answered to apps; the rest is history.
  datatype Past = Past(
    used: set<Id>,
    given: set<Id>,
    born: map<Id, Birth>,        // by session
    owner: map<Id, Id>,          // session of a refresh token
    named: map<Id, Id>,          // session of a public name
    connected: map<Id, Made>,    // by session, once its connection is saved
    answered: set<Id>,           // sessions whose first app token was answered
    taken: set<Id>,              // refresh tokens claimed for a renewal
    marked: map<Id, Id>,         // refresh tokens marked used, and their session
    replayed: set<Id>,           // sessions a marked token was presented for again
    renewals: multiset<Id>,      // refresh tokens whose renewal was answered
    exchanges: multiset<Id>,     // sessions whose token was accepted for an exchange
    faulty: bool)                // some request has crashed or met a store error

  datatype Sys = Sys(now: Time, store: State, reqs: map<nat, Request>, past: Past)

  const START := Sys(
    1, EMPTY, map[], Past({0}, {}, map[], map[], map[], map[], {}, {}, map[], {}, multiset{}, multiset{}, false))

  // The choices the code does not make: who asks, what the register answers,
  // which random value is drawn, which request runs next.
  datatype Action =
    | Tick(time: Time)
    | SignIn(r: nat, drawn: Id, name: Id, subject: string, clientID: string, scopes: seq<string>, lifetime: Time)
    | SaveTicket(r: nat, drawn: Id)
    | SpendTicket(r: nat, presented: Id)
    | LoadForChoice(r: nat)
    | SaveChoice(r: nat, tenant: string, assistant: string)
    | SaveCode(r: nat, drawn: Id)
    | SpendCode(r: nat, presented: Id, clientID: string)
    | LoadForCode(r: nat)
    | EndsConnection(r: nat)
    | SaveFirstGrant(r: nat, drawn: Id, name: Id)
    | SaveConnection(r: nat)
    | IndexConnection(r: nat)
    | PresentRefresh(r: nat, presented: Id, clientID: string)
    | PresentInVain(r: nat, presented: Id, clientID: string)
    | LoadForRenewal(r: nat)
    | Claim(r: nat)
    | SaveNext(r: nat, drawn: Id)
    | Mark(r: nat)
    | SaveRenewal(r: nat)
    | PresentRevoke(r: nat, presented: Id, clientID: string)
    | LoadForRevoke(r: nat)
    | DeleteEnded(r: nat)
    | DeleteOwnGrant(r: nat)
    | DeleteKeyGrant(r: nat)
    | RemoveEnded(r: nat)
    | DropGrant(r: nat)
    | Look(r: nat, index: IndexKey, conn: Connection, purpose: Purpose)
    | MissLooked(r: nat)
    | PassLooked(r: nat)
    | EndLooked(r: nat)
    | AcceptLooked(r: nat)
    | Clean(r: nat)
    | SaveUse(r: nat)
    | Refuse(r: nat)
    | Falter(r: nat)
    | Crash(r: nat)

  function EntryOf(sid: Id, m: Made): (IndexKey, Connection) {
    (IndexKey(m.tenant, m.assistant), Connection(m.sid, sid))
  }

  function MadeOf(sess: Session): Made {
    Made(sess.subject, sess.clientID, sess.tenant, sess.assistant, sess.appScopes, sess.sid, sess.expiresAt)
  }

  // Request r goes on as q, or is answered.
  function Goes(s: Sys, r: nat, q: Request, store: State): Sys {
    s.(reqs := s.reqs[r := q], store := store)
  }

  function Done(s: Sys, r: nat, store: State): Sys {
    s.(reqs := Remove(s.reqs, r), store := store)
  }

  predicate At(s: Sys, r: nat, pc: PC) {
    r in s.reqs && s.reqs[r].pc == pc
  }

  /** Where the code may refuse a request without ending anything: the register
      cannot answer, or a check of what was sent fails. */
  predicate MayRefuse(q: Request) {
    || q.pc == Choosing || q.pc == Chosen || q.pc == Redeeming || q.pc == Redeemed
    || (q.pc == Renewal && !q.rotated)
  }

  // The request an action moves on; a tick moves none.
  function Actor(a: Action): nat {
    if a.Tick? then 0 else a.r
  }

  // The handler an action belongs to: the choice of an assistant; a code; its exchange,
  // and a token presented; its claim; the rest of a refresh; an end; a look at an
  // index, and what comes of it; else its last step.

  predicate IsConnecting(a: Action) {
    || a.Tick? || a.SignIn? || a.SaveTicket? || a.SpendTicket? || a.LoadForChoice? || a.SaveChoice?
  }

  predicate IsRedeeming(a: Action) {
    || a.SaveCode? || a.SpendCode? || a.LoadForCode? || a.EndsConnection?
  }

  predicate IsIssuing(a: Action) {
    || a.SaveFirstGrant? || a.SaveConnection? || a.IndexConnection?
  }

  predicate IsPresenting(a: Action) {
    || a.PresentRefresh? || a.PresentInVain? || a.LoadForRenewal? || a.Claim?
  }

  predicate IsRenewing(a: Action) {
    || a.SaveNext? || a.Mark? || a.SaveRenewal? || a.PresentRevoke? || a.LoadForRevoke?
  }

  predicate IsEnding(a: Action) {
    || a.DeleteEnded? || a.DeleteOwnGrant? || a.DeleteKeyGrant? || a.RemoveEnded?
  }

  predicate IsLooking(a: Action) {
    || a.Look? || a.MissLooked? || a.PassLooked? || a.DropGrant?
  }

  predicate IsAnswering(a: Action) {
    || a.EndLooked? || a.AcceptLooked? || a.SaveUse?
  }

  // One predicate per action: what it needs, and the state it leaves.

  predicate TickStep(s: Sys, time: Time, t: Sys) {
    s.now <= time && t == s.(now := time, store := Age(s.store, time))
  }

  predicate SignInStep(
    s: Sys, r: nat, sid: Id, name: Id, subject: string, clientID: string, scopes: seq<string>, lifetime: Time, t: Sys)
  {
    && r !in s.reqs && sid !in s.past.used && name !in s.past.used && sid != name && 0 < lifetime
    && var sess := NO_SESSION.(subject := subject, sid := name);
    && var (store, added) := CreateSession(s.store, s.now, sid, sess, lifetime);
    && added
    && t == Goes(s, r, Begin(SavingTicket, sid).(clientID := clientID, scopes := scopes), store).(
              past := s.past.(used := s.past.used + {sid, name}, named := s.past.named[name := sid],
                              born := s.past.born[sid := Birth(subject, s.now + lifetime)]))
  }

  predicate SaveTicketStep(s: Sys, r: nat, ticket: Id, t: Sys) {
    && At(s, r, SavingTicket) && ticket !in s.past.used
    && var q := s.reqs[r];
    && var flow := Flow(q.sid, q.clientID, "", q.scopes);
    && t == Done(s, r, SaveFlow(s.store, s.now, ticket, flow, FLOW_TTL)).(
              past := s.past.(used := s.past.used + {ticket}))
  }

  predicate SpendTicketStep(s: Sys, r: nat, ticket: Id, t: Sys) {
    && r !in s.reqs
    && var (store, flow) := ConsumeFlow(s.store, ticket);
    && t == if flow.None? then s
            else
              var f := flow.value;
              Goes(s, r, Begin(Choosing, f.sessionID).(clientID := f.clientID, scopes := f.appScopes), store)
  }

  predicate LoadForChoiceStep(s: Sys, r: nat, t: Sys) {
    && At(s, r, Choosing)
    && var q := s.reqs[r];
    && var sess := LoadSession(s.store, q.sid);
    && t == if sess.Some? then Goes(s, r, q.(pc := Chosen, sess := sess.value), s.store) else Done(s, r, s.store)
  }

  predicate SaveChoiceStep(s: Sys, r: nat, tenant: string, assistant: string, t: Sys) {
    && At(s, r, Chosen)
    && var q := s.reqs[r];
    && var sess := q.sess.(clientID := q.clientID, tenant := tenant, assistant := assistant, appScopes := q.scopes);
    && var (store, ok) := ReplaceSession(s.store, s.now, q.sid, sess);
    && t == if ok then Goes(s, r, q.(pc := SavingCode, tenant := tenant, assistant := assistant), store)
            else Done(s, r, s.store)
  }

  predicate SaveCodeStep(s: Sys, r: nat, code: Id, t: Sys) {
    && At(s, r, SavingCode) && code !in s.past.used
    && var q := s.reqs[r];
    && var c := AppCode(q.sid, q.clientID, q.tenant, q.assistant, q.scopes);
    && t == Done(s, r, SaveAppCode(s.store, s.now, code, c, APP_CODE_TTL)).(
              past := s.past.(used := s.past.used + {code}))
  }

  /** A code is spent; by another client than it was issued to, in vain. */
  predicate SpendCodeStep(s: Sys, r: nat, code: Id, clientID: string, t: Sys) {
    && r !in s.reqs
    && var (store, c) := ConsumeAppCode(s.store, code);
    && t == if c.None? then s
            else if c.value.clientID != clientID then s.(store := store)
            else Goes(s, r, Begin(Redeeming, c.value.sessionID).(
                              clientID := clientID, assistant := c.value.assistant), store)
  }

  predicate LoadForCodeStep(s: Sys, r: nat, t: Sys) {
    && At(s, r, Redeeming)
    && var q := s.reqs[r];
    && var sess := LoadSession(s.store, q.sid);
    && t == if sess.Some? && q.assistant != ""
               && sess.value.assistant == q.assistant && sess.value.clientID == q.clientID
            then Goes(s, r, q.(pc := Redeemed, sess := sess.value), s.store) else Done(s, r, s.store)
  }

  /** The register answers that the assistant is gone, or the refresh token had
      been used before: the request goes on to end the connection. */
  predicate EndsConnectionStep(s: Sys, r: nat, t: Sys) {
    && (At(s, r, Redeemed) || At(s, r, Renewal))
    && t == Goes(s, r, s.reqs[r].(pc := Ending), s.store)
  }

  predicate SaveFirstGrantStep(s: Sys, r: nat, key: Id, name: Id, t: Sys) {
    && At(s, r, Redeemed) && key !in s.past.used && name !in s.past.used && key != name
    && var q := s.reqs[r];
    && var sess := q.sess.(refreshKey := key, sid := name);
    && var (store, ok) :=
         SaveRefresh(s.store, s.now, key, RefreshGrant(q.sid, q.clientID, false), q.sess.expiresAt);
    && var past := s.past.(used := s.past.used + {key, name}, owner := s.past.owner[key := q.sid],
                           named := s.past.named[name := q.sid]);
    && t == (if ok then Goes(s, r, q.(pc := SavingConnection, sess := sess), store)
             else Done(s, r, s.store)).(past := past)
  }

  predicate SaveConnectionStep(s: Sys, r: nat, t: Sys) {
    && At(s, r, SavingConnection)
    && var q := s.reqs[r];
    && var (store, ok) := ReplaceSession(s.store, s.now, q.sid, q.sess);
    && t == if ok then Goes(s, r, q.(pc := Indexing), store).(
                         past := s.past.(connected := s.past.connected[q.sid := MadeOf(q.sess)]))
            else Done(s, r, s.store)
  }

  predicate IndexConnectionStep(s: Sys, r: nat, t: Sys) {
    && At(s, r, Indexing)
    && var q := s.reqs[r];
    && var entry := EntryOf(q.sid, MadeOf(q.sess));
    && var (store, ok) := AddConnection(s.store, s.now, entry.0, entry.1, q.sess.expiresAt);
    && t == if ok then Done(s, r, store).(
                         past := s.past.(given := s.past.given + {q.sess.refreshKey},
                                         answered := s.past.answered + {q.sid}))
            else Done(s, r, s.store)
  }

  predicate GrantFor(s: Sys, key: Id, clientID: string) {
    var grant := LoadRefresh(s.store, key);
    grant.Some? && grant.value.clientID == clientID
  }

  /** A refresh token is presented by the client it was issued to. */
  predicate PresentRefreshStep(s: Sys, r: nat, key: Id, clientID: string, t: Sys) {
    && r !in s.reqs && key in s.past.given && GrantFor(s, key, clientID)
    && var grant := LoadRefresh(s.store, key).value;
    && t == Goes(s, r, Begin(Renewing, grant.sessionID).(clientID := clientID, key := key, rotated := grant.rotated),
                 s.store).(past := Replays(s.past, key))
  }

  /** A refresh token the store does not keep is presented, or by another client. */
  predicate PresentInVainStep(s: Sys, r: nat, key: Id, clientID: string, t: Sys) {
    && r !in s.reqs && key in s.past.given && !GrantFor(s, key, clientID)
    && t == if key in s.store.refresh then s else s.(past := Replays(s.past, key))
  }

  // Noted: a token marked used is presented again.
  function Replays(p: Past, key: Id): Past {
    if key in p.marked then p.(replayed := p.replayed + {p.marked[key]}) else p
  }

  predicate LoadForRenewalStep(s: Sys, r: nat, t: Sys) {
    && At(s, r, Renewing)
    && var q := s.reqs[r];
    && var sess := LoadSession(s.store, q.sid);
    && t == if sess.Some? then Goes(s, r, q.(pc := Renewal, sess := sess.value), s.store)
            else Goes(s, r, q.(pc := DroppingGrant), s.store)
  }

  predicate ClaimStep(s: Sys, r: nat, t: Sys) {
    && At(s, r, Renewal) && !s.reqs[r].rotated
    && var q := s.reqs[r];
    && var (store, claimed) := TakeRefresh(s.store, q.key);
    && t == if claimed.None? then Done(s, r, s.store)
            else if claimed.value.rotated || claimed.value.sessionID != q.sid
            then Goes(s, r, q.(pc := Ending), store)
            else Goes(s, r, q.(pc := SavingNext), store).(past := s.past.(taken := s.past.taken + {q.key}))
  }

  predicate SaveNextStep(s: Sys, r: nat, next: Id, t: Sys) {
    && At(s, r, SavingNext) && next !in s.past.used
    && var q := s.reqs[r];
    && var (store, ok) :=
         SaveRefresh(s.store, s.now, next, RefreshGrant(q.sid, q.clientID, false), q.sess.expiresAt);
    && var past := s.past.(used := s.past.used + {next}, owner := s.past.owner[next := q.sid]);
    && t == (if ok then Goes(s, r, q.(pc := Marking, next := next), store) else Done(s, r, s.store)).(past := past)
  }

  predicate MarkStep(s: Sys, r: nat, t: Sys) {
    && At(s, r, Marking)
    && var q := s.reqs[r];
    && var (store, ok) :=
         SaveRefresh(s.store, s.now, q.key, RefreshGrant(q.sid, q.clientID, true), q.sess.expiresAt);
    && t == if ok then Goes(s, r, q.(pc := SavingRenewal, sess := q.sess.(refreshKey := q.next)), store).(
                         past := s.past.(marked := s.past.marked[q.key := q.sid]))
            else Done(s, r, s.store)
  }

  predicate SaveRenewalStep(s: Sys, r: nat, t: Sys) {
    && At(s, r, SavingRenewal)
    && var q := s.reqs[r];
    && var (store, ok) := ReplaceSession(s.store, s.now, q.sid, q.sess);
    && t == if ok then Done(s, r, store).(
                         past := s.past.(given := s.past.given + {q.next},
                                         renewals := s.past.renewals + multiset{q.key}))
            else Done(s, r, s.store)
  }

  predicate PresentRevokeStep(s: Sys, r: nat, key: Id, clientID: string, t: Sys) {
    && r !in s.reqs && key in s.past.given
    && var grant := LoadRefresh(s.store, key);
    && t == if grant.Some? && grant.value.clientID == clientID
            then Goes(s, r, Begin(Revoking, grant.value.sessionID).(key := key), s.store) else s
  }

  predicate LoadForRevokeStep(s: Sys, r: nat, t: Sys) {
    && At(s, r, Revoking)
    && var q := s.reqs[r];
    && var sess := LoadSession(s.store, q.sid);
    && t == if sess.Some? then Goes(s, r, q.(pc := Ending, sess := sess.value), s.store)
            else Goes(s, r, q.(pc := DroppingGrant), s.store)
  }

  predicate DeleteEndedStep(s: Sys, r: nat, t: Sys) {
    && At(s, r, Ending)
    && var q := s.reqs[r];
    && t == Goes(s, r, q.(pc := EndingOwnGrant), DeleteSession(s.store, q.sid))
  }

  predicate DeleteOwnGrantStep(s: Sys, r: nat, t: Sys) {
    && At(s, r, EndingOwnGrant)
    && var q := s.reqs[r];
    && var key := q.sess.refreshKey;
    && t == Goes(s, r, q.(pc := EndingKeyGrant), if key == 0 then s.store else DeleteRefresh(s.store, key))
  }

  predicate DeleteKeyGrantStep(s: Sys, r: nat, t: Sys) {
    && At(s, r, EndingKeyGrant)
    && var q := s.reqs[r];
    && t == Goes(s, r, q.(pc := EndingIndex), if q.key == 0 then s.store else DeleteRefresh(s.store, q.key))
  }

  predicate RemoveEndedStep(s: Sys, r: nat, t: Sys) {
    && At(s, r, EndingIndex)
    && var q := s.reqs[r];
    && var entry := EntryOf(q.sid, MadeOf(q.sess));
    && t == Done(s, r, if q.sess.sid == 0 then s.store else RemoveConnection(s.store, entry.0, entry.1))
  }

  predicate DropGrantStep(s: Sys, r: nat, t: Sys) {
    && At(s, r, DroppingGrant)
    && t == Done(s, r, DeleteRefresh(s.store, s.reqs[r].key))
  }

  /** Connections answers the index, and this is one of its lines. */
  predicate LookStep(s: Sys, r: nat, index: IndexKey, conn: Connection, purpose: Purpose, t: Sys) {
    && r !in s.reqs && conn in Connections(s.store, index)
    && t == Goes(s, r, Begin(Looking, conn.sessionID).(
                         tenant := index.tenant, assistant := index.assistant, name := conn.id, purpose := purpose),
                 s.store)
  }

  /** The line is the one its session was kept for, and what its caller asks holds. */
  predicate Fits(q: Request, sess: Session) {
    && sess.sid == q.name && sess.tenant == q.tenant && sess.assistant == q.assistant
    && (q.purpose.Exchange? ==> sess.subject == q.purpose.subject && sess.clientID == q.purpose.clientID)
    && (q.purpose.SignOut? && q.purpose.person.Some? ==> sess.subject == q.purpose.person.value)
  }

  // The session a line names is loaded. Gone, its line is to be dropped.
  predicate MissLookedStep(s: Sys, r: nat, t: Sys) {
    && At(s, r, Looking) && LoadSession(s.store, s.reqs[r].sid).None?
    && t == Goes(s, r, s.reqs[r].(pc := Cleaning), s.store)
  }

  // It does not fit, or only a list was asked for.
  predicate PassLookedStep(s: Sys, r: nat, t: Sys) {
    && At(s, r, Looking)
    && var q := s.reqs[r];
    && var found := LoadSession(s.store, q.sid);
    && found.Some? && (q.purpose.List? || !Fits(q, found.value))
    && t == Done(s, r, s.store)
  }

  // It is signed out.
  predicate EndLookedStep(s: Sys, r: nat, t: Sys) {
    && At(s, r, Looking)
    && var q := s.reqs[r];
    && var found := LoadSession(s.store, q.sid);
    && found.Some? && Fits(q, found.value) && q.purpose.SignOut?
    && t == Goes(s, r, q.(pc := Ending, sess := found.value), s.store)
  }

  // Its token is exchanged: at once, or after its use is noted, once a minute.
  predicate AcceptLookedStep(s: Sys, r: nat, t: Sys) {
    && At(s, r, Looking)
    && var q := s.reqs[r];
    && var found := LoadSession(s.store, q.sid);
    && found.Some? && Fits(q, found.value) && q.purpose.Exchange?
    && t == if USED_EVERY <= s.now - found.value.lastUsed
            then Goes(s, r, q.(pc := SavingUse, sess := found.value.(lastUsed := s.now)), s.store)
            else Done(s, r, s.store).(past := s.past.(exchanges := s.past.exchanges + multiset{q.sid}))
  }

  predicate CleanStep(s: Sys, r: nat, t: Sys) {
    && At(s, r, Cleaning)
    && var q := s.reqs[r];
    && t == Done(s, r, RemoveConnection(s.store, IndexKey(q.tenant, q.assistant), Connection(q.name, q.sid)))
  }

  predicate SaveUseStep(s: Sys, r: nat, t: Sys) {
    && At(s, r, SavingUse)
    && var q := s.reqs[r];
    && var (store, ok) := ReplaceSession(s.store, s.now, q.sid, q.sess);
    && t == if ok then Done(s, r, store).(past := s.past.(exchanges := s.past.exchanges + multiset{q.sid}))
            else Done(s, r, s.store)
  }

  predicate RefuseStep(s: Sys, r: nat, t: Sys) {
    r in s.reqs && MayRefuse(s.reqs[r]) && t == Done(s, r, s.store)
  }

  /** A revocation whose session could not be loaded drops the grant presented, and
      nothing else. */
  predicate FalterStep(s: Sys, r: nat, t: Sys) {
    && At(s, r, Revoking)
    && t == Done(s, r, DeleteRefresh(s.store, s.reqs[r].key)).(past := s.past.(faulty := true))
  }

  predicate CrashStep(s: Sys, r: nat, t: Sys) {
    r in s.reqs && t == Done(s, r, s.store).(past := s.past.(faulty := true))
  }

  predicate Step(s: Sys, a: Action, t: Sys) {
    match a
    case Tick(time) => TickStep(s, time, t)
    case SignIn(r, drawn, name, subject, clientID, scopes, lifetime) =>
      SignInStep(s, r, drawn, name, subject, clientID, scopes, lifetime, t)
    case SaveTicket(r, drawn) => SaveTicketStep(s, r, drawn, t)
    case SpendTicket(r, presented) => SpendTicketStep(s, r, presented, t)
    case LoadForChoice(r) => LoadForChoiceStep(s, r, t)
    case SaveChoice(r, tenant, assistant) => SaveChoiceStep(s, r, tenant, assistant, t)
    case SaveCode(r, drawn) => SaveCodeStep(s, r, drawn, t)
    case SpendCode(r, presented, clientID) => SpendCodeStep(s, r, presented, clientID, t)
    case LoadForCode(r) => LoadForCodeStep(s, r, t)
    case EndsConnection(r) => EndsConnectionStep(s, r, t)
    case SaveFirstGrant(r, drawn, name) => SaveFirstGrantStep(s, r, drawn, name, t)
    case SaveConnection(r) => SaveConnectionStep(s, r, t)
    case IndexConnection(r) => IndexConnectionStep(s, r, t)
    case PresentRefresh(r, presented, clientID) => PresentRefreshStep(s, r, presented, clientID, t)
    case PresentInVain(r, presented, clientID) => PresentInVainStep(s, r, presented, clientID, t)
    case LoadForRenewal(r) => LoadForRenewalStep(s, r, t)
    case Claim(r) => ClaimStep(s, r, t)
    case SaveNext(r, drawn) => SaveNextStep(s, r, drawn, t)
    case Mark(r) => MarkStep(s, r, t)
    case SaveRenewal(r) => SaveRenewalStep(s, r, t)
    case PresentRevoke(r, presented, clientID) => PresentRevokeStep(s, r, presented, clientID, t)
    case LoadForRevoke(r) => LoadForRevokeStep(s, r, t)
    case DeleteEnded(r) => DeleteEndedStep(s, r, t)
    case DeleteOwnGrant(r) => DeleteOwnGrantStep(s, r, t)
    case DeleteKeyGrant(r) => DeleteKeyGrantStep(s, r, t)
    case RemoveEnded(r) => RemoveEndedStep(s, r, t)
    case DropGrant(r) => DropGrantStep(s, r, t)
    case Look(r, index, conn, purpose) => LookStep(s, r, index, conn, purpose, t)
    case MissLooked(r) => MissLookedStep(s, r, t)
    case PassLooked(r) => PassLookedStep(s, r, t)
    case EndLooked(r) => EndLookedStep(s, r, t)
    case AcceptLooked(r) => AcceptLookedStep(s, r, t)
    case Clean(r) => CleanStep(s, r, t)
    case SaveUse(r) => SaveUseStep(s, r, t)
    case Refuse(r) => RefuseStep(s, r, t)
    case Falter(r) => FalterStep(s, r, t)
    case Crash(r) => CrashStep(s, r, t)
  }

  ghost predicate Next(s: Sys, t: Sys) {
    exists a :: Step(s, a, t)
  }

  ghost predicate NextAt(run: seq<Sys>, i: nat)
    requires i + 1 < |run|
  {
    Next(run[i], run[i + 1])
  }

  /** A run of the service from its first moment, each state one action after the
      one before. */
  ghost predicate Run(run: seq<Sys>) {
    run != [] && run[0] == START && forall i: nat :: i + 1 < |run| ==> NextAt(run, i)
  }
}
