/** What a connection is of, over every run: the app and boxes it was signed in for, and
    the tenant and assistant its person chose (routes/authorize.go, routes/aiapp.go). All
    of it is read off what the actions themselves were given. */
module ConnectionChoices {
  import opened StoreModel
  import opened ConnectionMachine
  import opened ConnectionInvariant
  import opened ConnectionEffects
  import opened ConnectionTheorems

  // For the app and the boxes.
  predicate IsFor(sess: Session, clientID: string, scopes: seq<string>) {
    sess.clientID == clientID && sess.appScopes == scopes
  }

  predicate RequestFor(q: Request, clientID: string, scopes: seq<string>) {
    && (q.pc == SavingTicket || q.pc == Choosing || q.pc == Chosen || q.pc == SavingCode ==>
          q.clientID == clientID && q.scopes == scopes)
    && (q.pc == Redeeming || q.pc == Redeemed ==> q.clientID == clientID)
    && (q.pc == Renewing || q.pc == Renewal || q.pc == SavingNext || q.pc == Marking ==> q.clientID == clientID)
    && (q.pc == Redeemed || q.pc == SavingConnection ==> IsFor(q.sess, clientID, scopes))
  }

  /** Every ticket, code and refresh token of session sid, every request on its way with
      one, the session from its choice on, and its connection, are for the app, and
      where they name boxes, for those. */
  ghost predicate SignedFor(s: Sys, sid: Id, clientID: string, scopes: seq<string>) {
    && (forall k :: k in s.store.flows && s.store.flows[k].value.sessionID == sid ==>
                      s.store.flows[k].value.clientID == clientID && s.store.flows[k].value.appScopes == scopes)
    && (forall k :: k in s.store.codes && s.store.codes[k].value.sessionID == sid ==>
                      s.store.codes[k].value.clientID == clientID && s.store.codes[k].value.appScopes == scopes)
    && (forall k :: k in s.store.refresh && s.store.refresh[k].value.sessionID == sid ==>
                      s.store.refresh[k].value.clientID == clientID)
    && (forall r :: r in s.reqs && s.reqs[r].sid == sid ==> RequestFor(s.reqs[r], clientID, scopes))
    && (sid in s.store.sessions && s.store.sessions[sid].assistant != "" ==>
          IsFor(s.store.sessions[sid], clientID, scopes))
    && (sid in s.past.connected ==>
          s.past.connected[sid].clientID == clientID && s.past.connected[sid].appScopes == scopes)
  }

  // As the assistant, in the tenant.
  predicate IsAs(sess: Session, tenant: string, assistant: string) {
    sess.tenant == tenant && sess.assistant == assistant
  }

  predicate RequestAs(q: Request, tenant: string, assistant: string) {
    && q.pc != SavingTicket && q.pc != Choosing && q.pc != Chosen
    && (q.pc == SavingCode ==> q.tenant == tenant && q.assistant == assistant)
    && (q.pc == Redeeming ==> q.assistant == assistant)
    && (q.pc == Redeemed || q.pc == SavingConnection ==> IsAs(q.sess, tenant, assistant))
  }

  /** The choice is over: no ticket of session sid is left, and its codes, the requests
      on their way with one, the session and its connection are as chosen. */
  ghost predicate ChosenAs(s: Sys, sid: Id, tenant: string, assistant: string) {
    && (forall k :: k in s.store.flows ==> s.store.flows[k].value.sessionID != sid)
    && (forall k :: k in s.store.codes && s.store.codes[k].value.sessionID == sid ==>
                      s.store.codes[k].value.tenant == tenant && s.store.codes[k].value.assistant == assistant)
    && (forall r :: r in s.reqs && s.reqs[r].sid == sid ==> RequestAs(s.reqs[r], tenant, assistant))
    && (sid in s.store.sessions ==> IsAs(s.store.sessions[sid], tenant, assistant))
    && (sid in s.past.connected ==>
          s.past.connected[sid].tenant == tenant && s.past.connected[sid].assistant == assistant)
  }

  // What most actions leave alone

  // At work on a refresh token, as the app's.
  predicate Renews(pc: PC) {
    pc == Renewing || pc == Renewal || pc == SavingNext || pc == Marking
  }

  /** What leaves all that alone: no ticket or code comes, and no request on its way with
      one; a session is written only as its connection was made; and a refresh token is
      kept only for the app its request is of. */
  ghost predicate Calm(s: Sys, t: Sys, r: nat) {
    && t.past.connected == s.past.connected
    && (forall k :: k in t.store.flows ==> Same(s.store.flows, t.store.flows, k))
    && (forall k :: k in t.store.codes ==> Same(s.store.codes, t.store.codes, k))
    && (forall k :: k in t.store.sessions ==>
                      Same(s.store.sessions, t.store.sessions, k) || IsMade(s.past, k, MadeOf(t.store.sessions[k])))
    && (forall k :: k in t.store.refresh ==>
                      || Same(s.store.refresh, t.store.refresh, k)
                      || (r in s.reqs && Renews(s.reqs[r].pc)
                          && t.store.refresh[k].value.sessionID == s.reqs[r].sid
                          && t.store.refresh[k].value.clientID == s.reqs[r].clientID))
    && (forall o :: o in t.reqs && o != r ==> Same(s.reqs, t.reqs, o))
    && (r in t.reqs ==> !Pre(t.reqs[r].pc) || Same(s.reqs, t.reqs, r))
    && (r in t.reqs && Renews(t.reqs[r].pc) ==>
          && r in s.reqs && Renews(s.reqs[r].pc)
          && s.reqs[r].sid == t.reqs[r].sid && s.reqs[r].clientID == t.reqs[r].clientID)
  }

  lemma CalmKeepsFor(s: Sys, t: Sys, r: nat, sid: Id, clientID: string, scopes: seq<string>)
    requires Calm(s, t, r) && SignedFor(s, sid, clientID, scopes)
    ensures SignedFor(t, sid, clientID, scopes)
  {
    forall o | o in t.reqs && t.reqs[o].sid == sid ensures RequestFor(t.reqs[o], clientID, scopes) {
      if o != r { assert Same(s.reqs, t.reqs, o); }
    }
  }

  lemma CalmKeepsAs(s: Sys, t: Sys, r: nat, sid: Id, tenant: string, assistant: string)
    requires Calm(s, t, r) && ChosenAs(s, sid, tenant, assistant)
    ensures ChosenAs(t, sid, tenant, assistant)
  {
    forall o | o in t.reqs && t.reqs[o].sid == sid ensures RequestAs(t.reqs[o], tenant, assistant) {
      if o != r { assert Same(s.reqs, t.reqs, o); }
    }
  }

  lemma TickIsCalm(s: Sys, time: Time, t: Sys)
    requires TickStep(s, time, t)
    ensures Calm(s, t, 0)
  {}

  lemma MovesOnIsCalm(s: Sys, r: nat, t: Sys)
    requires EndsConnectionStep(s, r, t) || IndexConnectionStep(s, r, t)
    ensures Calm(s, t, r)
  {}

  lemma InVainIsCalm(s: Sys, r: nat, key: Id, clientID: string, t: Sys)
    requires PresentInVainStep(s, r, key, clientID, t) || PresentRevokeStep(s, r, key, clientID, t)
    ensures Calm(s, t, r)
  {}

  lemma LoadIsCalm(s: Sys, r: nat, t: Sys)
    requires LoadForRenewalStep(s, r, t) || LoadForRevokeStep(s, r, t)
    ensures Calm(s, t, r)
  {}

  lemma ClaimIsCalm(s: Sys, r: nat, t: Sys)
    requires ClaimStep(s, r, t) || MarkStep(s, r, t)
    ensures Calm(s, t, r)
  {}

  lemma NextIsCalm(s: Sys, r: nat, next: Id, t: Sys)
    requires SaveNextStep(s, r, next, t)
    ensures Calm(s, t, r)
  {}

  lemma SavesAreCalm(s: Sys, r: nat, t: Sys)
    requires SaveRenewalStep(s, r, t) || SaveUseStep(s, r, t)
    requires RightAt(s, r)
    ensures Calm(s, t, r)
  {}

  lemma DeletingIsCalm(s: Sys, r: nat, t: Sys)
    requires DeleteEndedStep(s, r, t) || RemoveEndedStep(s, r, t)
    ensures Calm(s, t, r)
  {}

  lemma DeletingGrantsIsCalm(s: Sys, r: nat, t: Sys)
    requires DeleteOwnGrantStep(s, r, t) || DeleteKeyGrantStep(s, r, t) || DropGrantStep(s, r, t)
    ensures Calm(s, t, r)
  {}

  lemma LookIsCalm(s: Sys, r: nat, index: IndexKey, conn: Connection, purpose: Purpose, t: Sys)
    requires LookStep(s, r, index, conn, purpose, t)
    ensures Calm(s, t, r)
  {}

  lemma MissIsCalm(s: Sys, r: nat, t: Sys)
    requires MissLookedStep(s, r, t) || PassLookedStep(s, r, t)
    ensures Calm(s, t, r)
  {}

  lemma LookedIsCalm(s: Sys, r: nat, t: Sys)
    requires EndLookedStep(s, r, t) || AcceptLookedStep(s, r, t)
    ensures Calm(s, t, r)
  {}

  lemma ClosingIsCalm(s: Sys, r: nat, t: Sys)
    requires CleanStep(s, r, t) || RefuseStep(s, r, t)
    ensures Calm(s, t, r)
  {}

  lemma FailingIsCalm(s: Sys, r: nat, t: Sys)
    requires FalterStep(s, r, t) || CrashStep(s, r, t)
    ensures Calm(s, t, r)
  {}

  // On the way to a connection, or at its first refresh token.
  predicate OnTheWay(a: Action) {
    || a.SignIn? || a.SaveTicket? || a.SpendTicket? || a.LoadForChoice? || a.SaveChoice? || a.SaveCode?
    || a.SpendCode? || a.LoadForCode? || a.SaveConnection? || a.SaveFirstGrant? || a.PresentRefresh?
  }

  lemma OthersAreCalm(s: Sys, a: Action, t: Sys)
    requires RequestsOk(s) && Step(s, a, t) && !OnTheWay(a)
    ensures Calm(s, t, Actor(a))
  {
    if a.SaveRenewal? || a.SaveUse? { assert RightAt(s, a.r); }
    if a.Tick? {
      TickIsCalm(s, a.time, t);
    } else if a.EndsConnection? || a.IndexConnection? {
      MovesOnIsCalm(s, a.r, t);
    } else if a.PresentInVain? || a.PresentRevoke? {
      InVainIsCalm(s, a.r, a.presented, a.clientID, t);
    } else if a.LoadForRenewal? || a.LoadForRevoke? {
      LoadIsCalm(s, a.r, t);
    } else if a.Claim? || a.Mark? {
      ClaimIsCalm(s, a.r, t);
    } else if a.SaveNext? {
      NextIsCalm(s, a.r, a.drawn, t);
    } else if a.SaveRenewal? || a.SaveUse? {
      SavesAreCalm(s, a.r, t);
    } else if a.DeleteEnded? || a.RemoveEnded? {
      DeletingIsCalm(s, a.r, t);
    } else if a.DeleteOwnGrant? || a.DeleteKeyGrant? || a.DropGrant? {
      DeletingGrantsIsCalm(s, a.r, t);
    } else if a.Look? {
      LookIsCalm(s, a.r, a.index, a.conn, a.purpose, t);
    } else if a.MissLooked? || a.PassLooked? {
      MissIsCalm(s, a.r, t);
    } else if a.EndLooked? || a.AcceptLooked? {
      LookedIsCalm(s, a.r, t);
    } else if a.Clean? || a.Refuse? {
      ClosingIsCalm(s, a.r, t);
    } else {
      FailingIsCalm(s, a.r, t);
    }
  }

  // What it is signed in for stays so

  lemma SigningKeepsFor(s: Sys, a: Action, t: Sys, sid: Id, clientID: string, scopes: seq<string>)
    requires a.SignIn? || a.SaveTicket?
    requires Ids(s) && sid in s.past.born && Step(s, a, t) && SignedFor(s, sid, clientID, scopes)
    ensures SignedFor(t, sid, clientID, scopes)
  {}

  lemma TicketKeepsFor(s: Sys, r: nat, ticket: Id, t: Sys, sid: Id, clientID: string, scopes: seq<string>)
    requires SpendTicketStep(s, r, ticket, t)
    requires SignedFor(s, sid, clientID, scopes)
    ensures SignedFor(t, sid, clientID, scopes)
  {}

  lemma LoadingKeepsFor(s: Sys, r: nat, t: Sys, sid: Id, clientID: string, scopes: seq<string>)
    requires LoadForChoiceStep(s, r, t)
    requires SignedFor(s, sid, clientID, scopes)
    ensures SignedFor(t, sid, clientID, scopes)
  {}

  lemma ChoiceKeepsFor(
    s: Sys, r: nat, toTenant: string, toAssistant: string, t: Sys, sid: Id, clientID: string, scopes: seq<string>)
    requires SaveChoiceStep(s, r, toTenant, toAssistant, t)
    requires SignedFor(s, sid, clientID, scopes)
    ensures SignedFor(t, sid, clientID, scopes)
  {}

  lemma CodeKeepsFor(s: Sys, r: nat, code: Id, t: Sys, sid: Id, clientID: string, scopes: seq<string>)
    requires SaveCodeStep(s, r, code, t)
    requires SignedFor(s, sid, clientID, scopes)
    ensures SignedFor(t, sid, clientID, scopes)
  {}

  lemma SpendingKeepsFor(
    s: Sys, r: nat, code: Id, client: string, t: Sys, sid: Id, clientID: string, scopes: seq<string>)
    requires SpendCodeStep(s, r, code, client, t)
    requires SignedFor(s, sid, clientID, scopes)
    ensures SignedFor(t, sid, clientID, scopes)
  {}

  lemma RedeemingKeepsFor(s: Sys, r: nat, t: Sys, sid: Id, clientID: string, scopes: seq<string>)
    requires LoadForCodeStep(s, r, t)
    requires SignedFor(s, sid, clientID, scopes)
    ensures SignedFor(t, sid, clientID, scopes)
  {}

  lemma ConnectingKeepsFor(s: Sys, r: nat, t: Sys, sid: Id, clientID: string, scopes: seq<string>)
    requires SaveConnectionStep(s, r, t)
    requires SignedFor(s, sid, clientID, scopes)
    ensures SignedFor(t, sid, clientID, scopes)
  {}

  lemma GrantKeepsFor(s: Sys, r: nat, key: Id, name: Id, t: Sys, sid: Id, clientID: string, scopes: seq<string>)
    requires SaveFirstGrantStep(s, r, key, name, t)
    requires SignedFor(s, sid, clientID, scopes)
    ensures SignedFor(t, sid, clientID, scopes)
  {}

  lemma PresentingKeepsFor(
    s: Sys, r: nat, key: Id, client: string, t: Sys, sid: Id, clientID: string, scopes: seq<string>)
    requires PresentRefreshStep(s, r, key, client, t)
    requires SignedFor(s, sid, clientID, scopes)
    ensures SignedFor(t, sid, clientID, scopes)
  {}

  lemma ForKept(s: Sys, a: Action, t: Sys, sid: Id, clientID: string, scopes: seq<string>)
    requires Sound(s) && sid in s.past.born && Step(s, a, t) && SignedFor(s, sid, clientID, scopes)
    ensures SignedFor(t, sid, clientID, scopes)
  {
    if !OnTheWay(a) {
      OthersAreCalm(s, a, t);
      CalmKeepsFor(s, t, Actor(a), sid, clientID, scopes);
    } else if a.SignIn? || a.SaveTicket? {
      SigningKeepsFor(s, a, t, sid, clientID, scopes);
    } else if a.SpendTicket? {
      TicketKeepsFor(s, a.r, a.presented, t, sid, clientID, scopes);
    } else if a.LoadForChoice? {
      LoadingKeepsFor(s, a.r, t, sid, clientID, scopes);
    } else if a.SaveChoice? {
      ChoiceKeepsFor(s, a.r, a.tenant, a.assistant, t, sid, clientID, scopes);
    } else if a.SaveCode? {
      CodeKeepsFor(s, a.r, a.drawn, t, sid, clientID, scopes);
    } else if a.SpendCode? {
      SpendingKeepsFor(s, a.r, a.presented, a.clientID, t, sid, clientID, scopes);
    } else if a.LoadForCode? {
      RedeemingKeepsFor(s, a.r, t, sid, clientID, scopes);
    } else if a.SaveConnection? {
      ConnectingKeepsFor(s, a.r, t, sid, clientID, scopes);
    } else if a.SaveFirstGrant? {
      GrantKeepsFor(s, a.r, a.drawn, a.name, t, sid, clientID, scopes);
    } else {
      PresentingKeepsFor(s, a.r, a.presented, a.clientID, t, sid, clientID, scopes);
    }
  }

  // What is chosen stays so

  lemma SigningKeepsAs(s: Sys, a: Action, t: Sys, sid: Id, tenant: string, assistant: string)
    requires a.SignIn? || a.SaveTicket?
    requires Ids(s) && sid in s.past.born && Step(s, a, t) && ChosenAs(s, sid, tenant, assistant)
    ensures ChosenAs(t, sid, tenant, assistant)
  {}

  lemma TicketKeepsAs(s: Sys, r: nat, ticket: Id, t: Sys, sid: Id, tenant: string, assistant: string)
    requires SpendTicketStep(s, r, ticket, t)
    requires ChosenAs(s, sid, tenant, assistant)
    ensures ChosenAs(t, sid, tenant, assistant)
  {}

  lemma LoadingKeepsAs(s: Sys, r: nat, t: Sys, sid: Id, tenant: string, assistant: string)
    requires LoadForChoiceStep(s, r, t)
    requires ChosenAs(s, sid, tenant, assistant)
    ensures ChosenAs(t, sid, tenant, assistant)
  {}

  lemma ChoiceKeepsAs(
    s: Sys, r: nat, toTenant: string, toAssistant: string, t: Sys, sid: Id, tenant: string, assistant: string)
    requires SaveChoiceStep(s, r, toTenant, toAssistant, t)
    requires ChosenAs(s, sid, tenant, assistant)
    ensures ChosenAs(t, sid, tenant, assistant)
  {}

  lemma CodeKeepsAs(s: Sys, r: nat, code: Id, t: Sys, sid: Id, tenant: string, assistant: string)
    requires SaveCodeStep(s, r, code, t)
    requires ChosenAs(s, sid, tenant, assistant)
    ensures ChosenAs(t, sid, tenant, assistant)
  {}

  lemma SpendingKeepsAs(s: Sys, r: nat, code: Id, client: string, t: Sys, sid: Id, tenant: string, assistant: string)
    requires SpendCodeStep(s, r, code, client, t)
    requires ChosenAs(s, sid, tenant, assistant)
    ensures ChosenAs(t, sid, tenant, assistant)
  {}

  lemma RedeemingKeepsAs(s: Sys, r: nat, t: Sys, sid: Id, tenant: string, assistant: string)
    requires LoadForCodeStep(s, r, t)
    requires ChosenAs(s, sid, tenant, assistant)
    ensures ChosenAs(t, sid, tenant, assistant)
  {}

  lemma ConnectingKeepsAs(s: Sys, r: nat, t: Sys, sid: Id, tenant: string, assistant: string)
    requires SaveConnectionStep(s, r, t)
    requires ChosenAs(s, sid, tenant, assistant)
    ensures ChosenAs(t, sid, tenant, assistant)
  {}

  lemma GrantKeepsAs(s: Sys, r: nat, key: Id, name: Id, t: Sys, sid: Id, tenant: string, assistant: string)
    requires SaveFirstGrantStep(s, r, key, name, t)
    requires ChosenAs(s, sid, tenant, assistant)
    ensures ChosenAs(t, sid, tenant, assistant)
  {}

  lemma PresentingKeepsAs(s: Sys, r: nat, key: Id, client: string, t: Sys, sid: Id, tenant: string, assistant: string)
    requires PresentRefreshStep(s, r, key, client, t)
    requires ChosenAs(s, sid, tenant, assistant)
    ensures ChosenAs(t, sid, tenant, assistant)
  {}

  lemma AsKept(s: Sys, a: Action, t: Sys, sid: Id, tenant: string, assistant: string)
    requires Sound(s) && sid in s.past.born && Step(s, a, t) && ChosenAs(s, sid, tenant, assistant)
    ensures ChosenAs(t, sid, tenant, assistant)
  {
    if !OnTheWay(a) {
      OthersAreCalm(s, a, t);
      CalmKeepsAs(s, t, Actor(a), sid, tenant, assistant);
    } else if a.SignIn? || a.SaveTicket? {
      SigningKeepsAs(s, a, t, sid, tenant, assistant);
    } else if a.SpendTicket? {
      TicketKeepsAs(s, a.r, a.presented, t, sid, tenant, assistant);
    } else if a.LoadForChoice? {
      LoadingKeepsAs(s, a.r, t, sid, tenant, assistant);
    } else if a.SaveChoice? {
      ChoiceKeepsAs(s, a.r, a.tenant, a.assistant, t, sid, tenant, assistant);
    } else if a.SaveCode? {
      CodeKeepsAs(s, a.r, a.drawn, t, sid, tenant, assistant);
    } else if a.SpendCode? {
      SpendingKeepsAs(s, a.r, a.presented, a.clientID, t, sid, tenant, assistant);
    } else if a.LoadForCode? {
      RedeemingKeepsAs(s, a.r, t, sid, tenant, assistant);
    } else if a.SaveConnection? {
      ConnectingKeepsAs(s, a.r, t, sid, tenant, assistant);
    } else if a.SaveFirstGrant? {
      GrantKeepsAs(s, a.r, a.drawn, a.name, t, sid, tenant, assistant);
    } else {
      PresentingKeepsAs(s, a.r, a.presented, a.clientID, t, sid, tenant, assistant);
    }
  }

  // Over every run.

  // A session not yet there.
  ghost predicate Fresh(s: Sys, sid: Id) {
    && (forall k :: k in s.store.flows ==> s.store.flows[k].value.sessionID != sid)
    && (forall k :: k in s.store.codes ==> s.store.codes[k].value.sessionID != sid)
    && (forall k :: k in s.store.refresh ==> s.store.refresh[k].value.sessionID != sid)
    && (forall r :: r in s.reqs ==> s.reqs[r].sid != sid)
    && sid !in s.past.connected
  }

  lemma UndrawnIsFresh(s: Sys, sid: Id)
    requires Sound(s) && sid !in s.past.used
    ensures Fresh(s, sid)
  {
    forall r | r in s.reqs ensures s.reqs[r].sid != sid { assert RightAt(s, r); }
  }

  lemma SignInIsFor(
    s: Sys, r: nat, sid: Id, name: Id, subject: string, clientID: string, scopes: seq<string>, lifetime: Time, t: Sys)
    requires Fresh(s, sid) && SignInStep(s, r, sid, name, subject, clientID, scopes, lifetime, t)
    ensures SignedFor(t, sid, clientID, scopes)
  {}

  /** A request on its way holds the one ticket or code of its session. */
  lemma OneOnItsWay(s: Sys, r: nat)
    requires Linear(s) && r in s.reqs && Pre(s.reqs[r].pc)
    ensures forall o :: o in s.reqs && o != r && s.reqs[o].sid == s.reqs[r].sid ==> !Pre(s.reqs[o].pc)
    ensures forall k :: k in s.store.flows ==> s.store.flows[k].value.sessionID != s.reqs[r].sid
    ensures forall k :: k in s.store.codes ==> s.store.codes[k].value.sessionID != s.reqs[r].sid
    ensures s.reqs[r].sid !in s.past.connected
  {
    var sid := s.reqs[r].sid;
    assert Holds(s, Held(r), sid, true);
    forall o | o in s.reqs && o != r && s.reqs[o].sid == sid ensures !Pre(s.reqs[o].pc) {
      assert Pre(s.reqs[o].pc) ==> Holds(s, Held(o), sid, true);
    }
    forall k | k in s.store.flows ensures s.store.flows[k].value.sessionID != sid {
      assert s.store.flows[k].value.sessionID == sid ==> Holds(s, Ticket(k), sid, true);
    }
    forall k | k in s.store.codes ensures s.store.codes[k].value.sessionID != sid {
      assert s.store.codes[k].value.sessionID == sid ==> Holds(s, Code(k), sid, true);
    }
  }

  lemma ChoiceIsAs(s: Sys, r: nat, tenant: string, assistant: string, t: Sys)
    requires Linear(s) && SaveChoiceStep(s, r, tenant, assistant, t) && r in t.reqs
    ensures ChosenAs(t, s.reqs[r].sid, tenant, assistant)
  {
    OneOnItsWay(s, r);
  }

  lemma ForNext(run: seq<Sys>, j: nat, sid: Id, clientID: string, scopes: seq<string>)
    requires Run(run) && j + 1 < |run| && sid in run[j].past.born && SignedFor(run[j], sid, clientID, scopes)
    ensures SignedFor(run[j + 1], sid, clientID, scopes)
  {
    RunIsRight(run, j);
    assert NextAt(run, j);
    var a :| Step(run[j], a, run[j + 1]);
    ForKept(run[j], a, run[j + 1], sid, clientID, scopes);
  }

  lemma AsNext(run: seq<Sys>, j: nat, sid: Id, tenant: string, assistant: string)
    requires Run(run) && j + 1 < |run| && sid in run[j].past.born && ChosenAs(run[j], sid, tenant, assistant)
    ensures ChosenAs(run[j + 1], sid, tenant, assistant)
  {
    RunIsRight(run, j);
    assert NextAt(run, j);
    var a :| Step(run[j], a, run[j + 1]);
    AsKept(run[j], a, run[j + 1], sid, tenant, assistant);
  }

  lemma BornStays(run: seq<Sys>, i: nat, j: nat, sid: Id)
    requires Run(run) && i <= j < |run| && sid in run[i].past.born
    ensures sid in run[j].past.born && run[j].past.born[sid] == run[i].past.born[sid]
  {
    EndedStaysEnded(run, i, j, sid);
  }

  lemma {:induction false} ForSince(
    run: seq<Sys>, i: nat, j: nat, sid: Id, clientID: string, scopes: seq<string>)
    requires Run(run) && i <= j < |run| && sid in run[i].past.born && SignedFor(run[i], sid, clientID, scopes)
    ensures SignedFor(run[j], sid, clientID, scopes)
    decreases j
  {
    if i < j {
      ForSince(run, i, j - 1, sid, clientID, scopes);
      BornStays(run, i, j - 1, sid);
      ForNext(run, j - 1, sid, clientID, scopes);
    }
  }

  lemma {:induction false} AsSince(run: seq<Sys>, i: nat, j: nat, sid: Id, tenant: string, assistant: string)
    requires Run(run) && i <= j < |run| && sid in run[i].past.born && ChosenAs(run[i], sid, tenant, assistant)
    ensures ChosenAs(run[j], sid, tenant, assistant)
    decreases j
  {
    if i < j {
      AsSince(run, i, j - 1, sid, tenant, assistant);
      BornStays(run, i, j - 1, sid);
      AsNext(run, j - 1, sid, tenant, assistant);
    }
  }

  predicate SignsInAs(
    run: seq<Sys>, i: nat, r: nat, sid: Id, name: Id, subject: string, clientID: string, scopes: seq<string>,
    ends: Time)
  {
    && i + 1 < |run|
    && SignInStep(run[i], r, sid, name, subject, clientID, scopes, ends - run[i].now, run[i + 1])
  }

  /** Step i of the run signs a person in for an app: their session, and its end. */
  ghost predicate SignsIn(
    run: seq<Sys>, i: nat, sid: Id, subject: string, clientID: string, scopes: seq<string>, ends: Time)
  {
    exists r: nat, name :: SignsInAs(run, i, r, sid, name, subject, clientID, scopes, ends)
  }

  lemma SignedAtOnce(
    run: seq<Sys>, i: nat, sid: Id, subject: string, clientID: string, scopes: seq<string>, ends: Time)
    requires Run(run) && SignsIn(run, i, sid, subject, clientID, scopes, ends)
    ensures i + 1 < |run| && sid in run[i + 1].past.born && run[i + 1].past.born[sid] == Birth(subject, ends)
    ensures SignedFor(run[i + 1], sid, clientID, scopes)
  {
    var r: nat, name :| SignsInAs(run, i, r, sid, name, subject, clientID, scopes, ends);
    RunIsRight(run, i);
    UndrawnIsFresh(run[i], sid);
    SignInIsFor(run[i], r, sid, name, subject, clientID, scopes, ends - run[i].now, run[i + 1]);
  }

  lemma SignedSince(
    run: seq<Sys>, i: nat, j: nat, sid: Id, subject: string, clientID: string, scopes: seq<string>, ends: Time)
    requires Run(run) && i < j < |run| && SignsIn(run, i, sid, subject, clientID, scopes, ends)
    ensures sid in run[j].past.born && run[j].past.born[sid] == Birth(subject, ends)
    ensures SignedFor(run[j], sid, clientID, scopes)
  {
    SignedAtOnce(run, i, sid, subject, clientID, scopes, ends);
    BornStays(run, i + 1, j, sid);
    ForSince(run, i + 1, j, sid, clientID, scopes);
  }

  /** A connection is of the sign-in that made its session: of its person, of the app it
      was for and the boxes that asked for, and for the lifetime it was given; and no
      other app holds a code or a refresh token of it. */
  lemma ConnectionIsOfItsSignIn(
    run: seq<Sys>, i: nat, j: nat, sid: Id, subject: string, clientID: string, scopes: seq<string>, ends: Time)
    requires Run(run) && i < j < |run| && SignsIn(run, i, sid, subject, clientID, scopes, ends)
    ensures sid in run[j].past.connected ==>
              var made := run[j].past.connected[sid];
              && made.subject == subject && made.clientID == clientID && made.appScopes == scopes
              && made.expiresAt == ends
    ensures sid in run[j].store.sessions ==>
              run[j].store.sessions[sid].subject == subject && run[j].store.sessions[sid].expiresAt == ends
    ensures forall k :: k in run[j].store.codes && run[j].store.codes[k].value.sessionID == sid ==>
                          run[j].store.codes[k].value.clientID == clientID
    ensures forall k :: k in run[j].store.refresh && run[j].store.refresh[k].value.sessionID == sid ==>
                          run[j].store.refresh[k].value.clientID == clientID
  {
    SignedSince(run, i, j, sid, subject, clientID, scopes, ends);
    RunIsRight(run, j);
    assert sid in run[j].past.connected ==> MadeOk(run[j].past, sid, run[j].past.connected[sid]);
    assert sid in run[j].store.sessions ==> CopyOk(run[j].past, sid, run[j].store.sessions[sid]);
  }

  lemma ChosenAtOnce(run: seq<Sys>, i: nat, r: nat, tenant: string, assistant: string)
    requires Run(run) && i + 1 < |run| && SaveChoiceStep(run[i], r, tenant, assistant, run[i + 1])
    requires r in run[i + 1].reqs
    ensures run[i].reqs[r].sid in run[i + 1].past.born
    ensures ChosenAs(run[i + 1], run[i].reqs[r].sid, tenant, assistant)
  {
    RunIsRight(run, i);
    assert RightAt(run[i], r);
    ChoiceIsAs(run[i], r, tenant, assistant, run[i + 1]);
  }

  lemma LinesAsChosen(run: seq<Sys>, j: nat, sid: Id, tenant: string, assistant: string)
    requires Run(run) && j < |run| && ChosenAs(run[j], sid, tenant, assistant)
    ensures forall l :: l in run[j].store.index && l.1.sessionID == sid ==> l.0 == IndexKey(tenant, assistant)
  {
    RunIsRight(run, j);
    forall l | l in run[j].store.index && l.1.sessionID == sid ensures l.0 == IndexKey(tenant, assistant) {
      assert LineOk(run[j].past, l, run[j].store.index[l]);
    }
  }

  /** And as its person chose: once a tenant and an assistant are saved as the choice for
      a session, its code, the session and its connection are as that assistant in that
      tenant, and so is its line in an index. */
  lemma ConnectionIsAsChosen(run: seq<Sys>, i: nat, r: nat, tenant: string, assistant: string, j: nat)
    requires Run(run) && i < j < |run| && SaveChoiceStep(run[i], r, tenant, assistant, run[i + 1])
    requires r in run[i + 1].reqs
    ensures var sid, s := run[i].reqs[r].sid, run[j];
            && (sid in s.past.connected ==>
                  s.past.connected[sid].tenant == tenant && s.past.connected[sid].assistant == assistant)
            && (sid in s.store.sessions ==>
                  s.store.sessions[sid].tenant == tenant && s.store.sessions[sid].assistant == assistant)
            && (forall k :: k in s.store.codes && s.store.codes[k].value.sessionID == sid ==>
                              s.store.codes[k].value.tenant == tenant && s.store.codes[k].value.assistant == assistant)
            && (forall l :: l in s.store.index && l.1.sessionID == sid ==> l.0 == IndexKey(tenant, assistant))
  {
    ChosenAtOnce(run, i, r, tenant, assistant);
    AsSince(run, i + 1, j, run[i].reqs[r].sid, tenant, assistant);
    LinesAsChosen(run, j, run[i].reqs[r].sid, tenant, assistant);
  }

  /** A code connects only the app its session was signed in for; presented by another
      it is spent all the same, in vain. */
  lemma OnlyItsAppConnects(
    run: seq<Sys>, i: nat, j: nat, sid: Id, subject: string, clientID: string, scopes: seq<string>, ends: Time,
    r: nat, code: Id, client: string)
    requires Run(run) && i < j && j + 1 < |run| && SignsIn(run, i, sid, subject, clientID, scopes, ends)
    requires SpendCodeStep(run[j], r, code, client, run[j + 1])
    requires code in run[j].store.codes && run[j].store.codes[code].value.sessionID == sid
    ensures code !in run[j + 1].store.codes && run[j + 1].past == run[j].past
    ensures if client == clientID then r in run[j + 1].reqs && run[j + 1].reqs[r].sid == sid
            else run[j + 1].reqs == run[j].reqs
  {
    SignedSince(run, i, j, sid, subject, clientID, scopes, ends);
  }

  /** And its refresh tokens renew, and are revoked, by that app alone; presented by
      another nothing is done. */
  lemma OnlyItsAppRenews(
    run: seq<Sys>, i: nat, j: nat, sid: Id, subject: string, clientID: string, scopes: seq<string>, ends: Time,
    r: nat, key: Id, client: string)
    requires Run(run) && i < j && j + 1 < |run| && SignsIn(run, i, sid, subject, clientID, scopes, ends)
    requires key in run[j].store.refresh && run[j].store.refresh[key].value.sessionID == sid
    ensures PresentRefreshStep(run[j], r, key, client, run[j + 1]) ==> client == clientID
    ensures PresentInVainStep(run[j], r, key, client, run[j + 1]) ==> client != clientID && run[j + 1] == run[j]
    ensures PresentRevokeStep(run[j], r, key, client, run[j + 1]) ==>
              if client == clientID then r in run[j + 1].reqs && run[j + 1].reqs[r].sid == sid
              else run[j + 1] == run[j]
  {
    SignedSince(run, i, j, sid, subject, clientID, scopes, ends);
  }
}
