/** What every action of the connection machine keeps. */
module ConnectionKept {
  import opened StoreModel
  import opened ConnectionMachine
  import opened ConnectionInvariant
  import opened ConnectionEffects
  import opened ConnectionSteps

  lemma LocalHere(s: Sys, r: nat)
    requires Sound(s)
    ensures Local(s, r)
  {
    if r in s.reqs { assert RightAt(s, r); }
  }

  lemma RightHoldsConnecting(s: Sys, a: Action, t: Sys)
    requires IsConnecting(a)
    requires Sound(s) && Linear(s) && Step(s, a, t)
    ensures Right(s, t, Actor(a))
  {
    LocalHere(s, Actor(a));
    if a.Tick? {
      TickRight(s, a.time, t);
    } else if a.SignIn? {
      SignInOnward(s, a.r, a.drawn, a.name, a.subject, a.clientID, a.scopes, a.lifetime, t);
      SignInRequest(s, a.r, a.drawn, a.name, a.subject, a.clientID, a.scopes, a.lifetime, t);
      SignInStore(s, a.r, a.drawn, a.name, a.subject, a.clientID, a.scopes, a.lifetime, t);
    } else if a.SaveTicket? {
      SaveTicketOnward(s, a.r, a.drawn, t);
      SaveTicketRequest(s, a.r, a.drawn, t);
      SaveTicketStore(s, a.r, a.drawn, t);
    } else if a.SpendTicket? {
      SpendTicketOnward(s, a.r, a.presented, t);
      SpendTicketRequest(s, a.r, a.presented, t);
      SpendTicketStore(s, a.r, a.presented, t);
    } else if a.LoadForChoice? {
      LoadForChoiceRight(s, a.r, t);
    } else {
      SaveChoiceOnward(s, a.r, a.tenant, a.assistant, t);
      SaveChoiceRequest(s, a.r, a.tenant, a.assistant, t);
      SaveChoiceStore(s, a.r, a.tenant, a.assistant, t);
    }
  }

  lemma RightHoldsRedeeming(s: Sys, a: Action, t: Sys)
    requires IsRedeeming(a)
    requires Sound(s) && Linear(s) && Step(s, a, t)
    ensures Right(s, t, Actor(a))
  {
    LocalHere(s, Actor(a));
    if a.SaveCode? {
      SaveCodeOnward(s, a.r, a.drawn, t);
      SaveCodeRequest(s, a.r, a.drawn, t);
      SaveCodeStore(s, a.r, a.drawn, t);
    } else if a.SpendCode? {
      SpendCodeOnward(s, a.r, a.presented, a.clientID, t);
      SpendCodeRequest(s, a.r, a.presented, a.clientID, t);
      SpendCodeStore(s, a.r, a.presented, a.clientID, t);
    } else if a.LoadForCode? {
      LoadForCodeRight(s, a.r, t);
    } else {
      EndsConnectionRight(s, a.r, t);
    }
  }

  lemma RightHoldsIssuing(s: Sys, a: Action, t: Sys)
    requires IsIssuing(a)
    requires Sound(s) && Linear(s) && Step(s, a, t)
    ensures Right(s, t, Actor(a))
  {
    LocalHere(s, Actor(a));
    if a.SaveFirstGrant? {
      SaveFirstGrantOnward(s, a.r, a.drawn, a.name, t);
      SaveFirstGrantRequest(s, a.r, a.drawn, a.name, t);
      SaveFirstGrantStore(s, a.r, a.drawn, a.name, t);
    } else if a.SaveConnection? {
      SaveConnectionOnward(s, a.r, t);
      SaveConnectionRequest(s, a.r, t);
      SaveConnectionStore(s, a.r, t);
    } else {
      IndexConnectionOnward(s, a.r, t);
      IndexConnectionRequest(s, a.r, t);
      IndexConnectionStore(s, a.r, t);
    }
  }

  lemma RightHoldsPresenting(s: Sys, a: Action, t: Sys)
    requires IsPresenting(a)
    requires Sound(s) && Linear(s) && Step(s, a, t)
    ensures Right(s, t, Actor(a))
  {
    LocalHere(s, Actor(a));
    if a.PresentRefresh? {
      PresentRefreshOnward(s, a.r, a.presented, a.clientID, t);
      PresentRefreshRequest(s, a.r, a.presented, a.clientID, t);
      PresentRefreshStore(s, a.r, a.presented, a.clientID, t);
    } else if a.PresentInVain? {
      PresentInVainOnward(s, a.r, a.presented, a.clientID, t);
      PresentInVainRequest(s, a.r, a.presented, a.clientID, t);
      PresentInVainStore(s, a.r, a.presented, a.clientID, t);
    } else if a.LoadForRenewal? {
      LoadForRenewalOnward(s, a.r, t);
      LoadForRenewalRequest(s, a.r, t);
      LoadForRenewalStore(s, a.r, t);
    } else {
      ClaimOnward(s, a.r, t);
      ClaimRequest(s, a.r, t);
      ClaimStore(s, a.r, t);
    }
  }

  lemma RightHoldsRenewing(s: Sys, a: Action, t: Sys)
    requires IsRenewing(a)
    requires Sound(s) && Linear(s) && Step(s, a, t)
    ensures Right(s, t, Actor(a))
  {
    LocalHere(s, Actor(a));
    if a.SaveNext? {
      SaveNextOnward(s, a.r, a.drawn, t);
      SaveNextRequest(s, a.r, a.drawn, t);
      SaveNextStore(s, a.r, a.drawn, t);
    } else if a.Mark? {
      MarkOnward(s, a.r, t);
      MarkRequest(s, a.r, t);
      MarkStore(s, a.r, t);
    } else if a.SaveRenewal? {
      SaveRenewalOnward(s, a.r, t);
      SaveRenewalRequest(s, a.r, t);
      SaveRenewalStore(s, a.r, t);
    } else if a.PresentRevoke? {
      PresentRevokeOnward(s, a.r, a.presented, a.clientID, t);
      PresentRevokeRequest(s, a.r, a.presented, a.clientID, t);
      PresentRevokeStore(s, a.r, a.presented, a.clientID, t);
    } else {
      LoadForRevokeOnward(s, a.r, t);
      LoadForRevokeRequest(s, a.r, t);
      LoadForRevokeStore(s, a.r, t);
    }
  }

  lemma RightHoldsEnding(s: Sys, a: Action, t: Sys)
    requires IsEnding(a)
    requires Sound(s) && Linear(s) && Step(s, a, t)
    ensures Right(s, t, Actor(a))
  {
    LocalHere(s, Actor(a));
    if a.DeleteEnded? {
      DeleteEndedRight(s, a.r, t);
    } else if a.DeleteOwnGrant? {
      DeleteOwnGrantOnward(s, a.r, t);
      DeleteOwnGrantRequest(s, a.r, t);
      DeleteOwnGrantStore(s, a.r, t);
    } else if a.DeleteKeyGrant? {
      DeleteKeyGrantOnward(s, a.r, t);
      DeleteKeyGrantRequest(s, a.r, t);
      DeleteKeyGrantStore(s, a.r, t);
    } else {
      RemoveEndedRight(s, a.r, t);
    }
  }

  lemma RightHoldsLooking(s: Sys, a: Action, t: Sys)
    requires IsLooking(a)
    requires Sound(s) && Linear(s) && Step(s, a, t)
    ensures Right(s, t, Actor(a))
  {
    LocalHere(s, Actor(a));
    if a.Look? {
      LookOnward(s, a.r, a.index, a.conn, a.purpose, t);
      LookRequest(s, a.r, a.index, a.conn, a.purpose, t);
      LookStore(s, a.r, a.index, a.conn, a.purpose, t);
    } else if a.MissLooked? {
      MissLookedOnward(s, a.r, t);
      MissLookedRequest(s, a.r, t);
      MissLookedStore(s, a.r, t);
    } else if a.PassLooked? {
      PassLookedRight(s, a.r, t);
    } else {
      DropGrantRight(s, a.r, t);
    }
  }

  lemma RightHoldsAnswering(s: Sys, a: Action, t: Sys)
    requires IsAnswering(a)
    requires Sound(s) && Linear(s) && Step(s, a, t)
    ensures Right(s, t, Actor(a))
  {
    LocalHere(s, Actor(a));
    if a.EndLooked? {
      EndLookedOnward(s, a.r, t);
      EndLookedRequest(s, a.r, t);
      EndLookedStore(s, a.r, t);
    } else if a.AcceptLooked? {
      AcceptLookedOnward(s, a.r, t);
      AcceptLookedRequest(s, a.r, t);
      AcceptLookedStore(s, a.r, t);
    } else {
      SaveUseOnward(s, a.r, t);
      SaveUseRequest(s, a.r, t);
      SaveUseStore(s, a.r, t);
    }
  }

  lemma RightHoldsClosing(s: Sys, a: Action, t: Sys)
    requires a.Clean? || a.Refuse? || a.Falter? || a.Crash?
    requires Sound(s) && Linear(s) && Step(s, a, t)
    ensures Right(s, t, Actor(a))
  {
    LocalHere(s, Actor(a));
    if a.Clean? {
      CleanRight(s, a.r, t);
    } else if a.Refuse? {
      RefuseRight(s, a.r, t);
    } else if a.Falter? {
      FalterRight(s, a.r, t);
    } else {
      CrashOnward(s, a.r, t);
      CrashRequest(s, a.r, t);
      CrashStore(s, a.r, t);
    }
  }

  lemma RightHolds(s: Sys, a: Action, t: Sys)
    requires Sound(s) && Linear(s) && Step(s, a, t)
    ensures Right(s, t, Actor(a))
  {
    if IsConnecting(a) {
      RightHoldsConnecting(s, a, t);
    } else if IsRedeeming(a) {
      RightHoldsRedeeming(s, a, t);
    } else if IsIssuing(a) {
      RightHoldsIssuing(s, a, t);
    } else if IsPresenting(a) {
      RightHoldsPresenting(s, a, t);
    } else if IsRenewing(a) {
      RightHoldsRenewing(s, a, t);
    } else if IsEnding(a) {
      RightHoldsEnding(s, a, t);
    } else if IsLooking(a) {
      RightHoldsLooking(s, a, t);
    } else if IsAnswering(a) {
      RightHoldsAnswering(s, a, t);
    } else {
      RightHoldsClosing(s, a, t);
    }
  }

  // Moves a credential.
  predicate MovesCredential(a: Action) {
    || a.SignIn? || a.SaveTicket? || a.SpendTicket? || a.SaveCode? || a.SpendCode?
    || a.SaveFirstGrant? || a.SaveConnection? || a.Claim? || a.SaveNext?
  }

  // Claims a token, or answers for one.
  predicate AnswersToken(a: Action) {
    a.Claim? || a.SaveRenewal?
  }

  // Makes a connection, or its line.
  predicate MakesLine(a: Action) {
    a.SaveConnection? || a.IndexConnection?
  }

  // Marks a token used, or is sent one.
  predicate PresentsToken(a: Action) {
    a.Mark? || a.PresentRefresh? || a.PresentInVain?
  }

  /** What an action that does none of that leaves alone. */
  ghost predicate LeavesAlone(s: Sys, a: Action, t: Sys) {
    && (!MovesCredential(a) ==> OnlyLoses(s, t, Actor(a)))
    && (!AnswersToken(a) ==> ClaimsNothing(s, t, Actor(a)))
    && (!MakesLine(a) ==> KeepsLines(s, t))
    && (!PresentsToken(a) ==> KeepsMarks(s, t, Actor(a)))
  }

  lemma LeftAloneConnecting(s: Sys, a: Action, t: Sys)
    requires IsConnecting(a)
    requires Sound(s) && Step(s, a, t)
    ensures LeavesAlone(s, a, t)
  {
    LocalHere(s, Actor(a));
    if a.Tick? {
      TickLeaves(s, a.time, t);
    } else if a.SignIn? {
      SignInLeaves(s, a.r, a.drawn, a.name, a.subject, a.clientID, a.scopes, a.lifetime, t);
    } else if a.SaveTicket? {
      SaveTicketLeaves(s, a.r, a.drawn, t);
    } else if a.SpendTicket? {
      SpendTicketLeaves(s, a.r, a.presented, t);
    } else if a.LoadForChoice? {
      LoadForChoiceLeaves(s, a.r, t);
    } else {
      SaveChoiceLeaves(s, a.r, a.tenant, a.assistant, t);
    }
  }

  lemma LeftAloneRedeeming(s: Sys, a: Action, t: Sys)
    requires IsRedeeming(a)
    requires Sound(s) && Step(s, a, t)
    ensures LeavesAlone(s, a, t)
  {
    LocalHere(s, Actor(a));
    if a.SaveCode? {
      SaveCodeLeaves(s, a.r, a.drawn, t);
    } else if a.SpendCode? {
      SpendCodeLeaves(s, a.r, a.presented, a.clientID, t);
    } else if a.LoadForCode? {
      LoadForCodeLeaves(s, a.r, t);
    } else {
      EndsConnectionLeaves(s, a.r, t);
    }
  }

  lemma LeftAloneIssuing(s: Sys, a: Action, t: Sys)
    requires IsIssuing(a)
    requires Sound(s) && Step(s, a, t)
    ensures LeavesAlone(s, a, t)
  {
    LocalHere(s, Actor(a));
    if a.SaveFirstGrant? {
      SaveFirstGrantLeaves(s, a.r, a.drawn, a.name, t);
    } else if a.SaveConnection? {
      SaveConnectionLeaves(s, a.r, t);
    } else {
      IndexConnectionLeaves(s, a.r, t);
    }
  }

  lemma LeftAlonePresenting(s: Sys, a: Action, t: Sys)
    requires IsPresenting(a)
    requires Sound(s) && Step(s, a, t)
    ensures LeavesAlone(s, a, t)
  {
    LocalHere(s, Actor(a));
    if a.PresentRefresh? {
      PresentRefreshLeaves(s, a.r, a.presented, a.clientID, t);
    } else if a.PresentInVain? {
      PresentInVainLeaves(s, a.r, a.presented, a.clientID, t);
    } else if a.LoadForRenewal? {
      LoadForRenewalLeaves(s, a.r, t);
    } else {
      ClaimLeaves(s, a.r, t);
      ClaimKeepsDue(s, a.r, t);
    }
  }

  lemma LeftAloneRenewing(s: Sys, a: Action, t: Sys)
    requires IsRenewing(a)
    requires Sound(s) && Step(s, a, t)
    ensures LeavesAlone(s, a, t)
  {
    LocalHere(s, Actor(a));
    if a.SaveNext? {
      SaveNextLeaves(s, a.r, a.drawn, t);
    } else if a.Mark? {
      MarkLeaves(s, a.r, t);
    } else if a.SaveRenewal? {
      SaveRenewalLeaves(s, a.r, t);
    } else if a.PresentRevoke? {
      PresentRevokeLeaves(s, a.r, a.presented, a.clientID, t);
    } else {
      LoadForRevokeLeaves(s, a.r, t);
    }
  }

  lemma LeftAloneEnding(s: Sys, a: Action, t: Sys)
    requires IsEnding(a)
    requires Sound(s) && Step(s, a, t)
    ensures LeavesAlone(s, a, t)
  {
    LocalHere(s, Actor(a));
    if a.DeleteEnded? {
      DeleteEndedLeaves(s, a.r, t);
    } else if a.DeleteOwnGrant? {
      DeleteOwnGrantLeaves(s, a.r, t);
      DeleteOwnGrantKeepsMarks(s, a.r, t);
    } else if a.DeleteKeyGrant? {
      DeleteKeyGrantLeaves(s, a.r, t);
      DeleteKeyGrantKeepsMarks(s, a.r, t);
    } else {
      RemoveEndedLeaves(s, a.r, t);
    }
  }

  lemma LeftAloneLooking(s: Sys, a: Action, t: Sys)
    requires IsLooking(a)
    requires Sound(s) && Step(s, a, t)
    ensures LeavesAlone(s, a, t)
  {
    LocalHere(s, a.r);
    if a.Look? {
      LookLeaves(s, a.r, a.index, a.conn, a.purpose, t);
    } else if a.MissLooked? {
      MissLookedLeaves(s, a.r, t);
    } else if a.PassLooked? {
      PassLookedLeaves(s, a.r, t);
    } else {
      DropGrantLeaves(s, a.r, t);
    }
  }

  lemma LeftAloneAnswering(s: Sys, a: Action, t: Sys)
    requires IsAnswering(a)
    requires Sound(s) && Step(s, a, t)
    ensures LeavesAlone(s, a, t)
  {
    LocalHere(s, Actor(a));
    if a.EndLooked? {
      EndLookedLeaves(s, a.r, t);
    } else if a.AcceptLooked? {
      AcceptLookedLeaves(s, a.r, t);
    } else {
      SaveUseLeaves(s, a.r, t);
    }
  }

  lemma LeftAloneClosing(s: Sys, a: Action, t: Sys)
    requires a.Clean? || a.Refuse? || a.Falter? || a.Crash?
    requires Sound(s) && Step(s, a, t)
    ensures LeavesAlone(s, a, t)
  {
    LocalHere(s, Actor(a));
    if a.Clean? {
      CleanLeaves(s, a.r, t);
    } else if a.Refuse? {
      RefuseLeaves(s, a.r, t);
    } else if a.Falter? {
      FalterLeaves(s, a.r, t);
    } else {
      CrashLeaves(s, a.r, t);
    }
  }

  lemma LeftAlone(s: Sys, a: Action, t: Sys)
    requires Sound(s) && Step(s, a, t)
    ensures LeavesAlone(s, a, t)
  {
    if IsConnecting(a) {
      LeftAloneConnecting(s, a, t);
    } else if IsRedeeming(a) {
      LeftAloneRedeeming(s, a, t);
    } else if IsIssuing(a) {
      LeftAloneIssuing(s, a, t);
    } else if IsPresenting(a) {
      LeftAlonePresenting(s, a, t);
    } else if IsRenewing(a) {
      LeftAloneRenewing(s, a, t);
    } else if IsEnding(a) {
      LeftAloneEnding(s, a, t);
    } else if IsLooking(a) {
      LeftAloneLooking(s, a, t);
    } else if IsAnswering(a) {
      LeftAloneAnswering(s, a, t);
    } else {
      LeftAloneClosing(s, a, t);
    }
  }

  lemma SoundKept(s: Sys, a: Action, t: Sys)
    requires Sound(s) && Linear(s) && Step(s, a, t)
    ensures Sound(t) && Grows(s.past, t.past)
  {
    RightHolds(s, a, t);
    EffectKeepsRequests(s, t, Actor(a));
    EffectKeepsStore(s, t);
  }

  // Credentials move one at a time.

  lemma TicketMoves(s: Sys, r: nat, ticket: Id, t: Sys)
    requires Ids(s) && Linear(s) && (SaveTicketStep(s, r, ticket, t) || SpendTicketStep(s, r, ticket, t))
    ensures Linear(t)
  {
    if SaveTicketStep(s, r, ticket, t) {
      assert Moves(s, t, Held(r), Ticket(ticket), s.reqs[r].sid, true);
      MovingKeepsLinear(s, t, Held(r), Ticket(ticket), s.reqs[r].sid, true);
    } else if ticket in s.store.flows {
      var sid := s.store.flows[ticket].value.sessionID;
      assert Moves(s, t, Ticket(ticket), Held(r), sid, true);
      MovingKeepsLinear(s, t, Ticket(ticket), Held(r), sid, true);
    }
  }

  lemma CodeSpent(s: Sys, r: nat, code: Id, clientID: string, t: Sys)
    requires Ids(s) && Linear(s) && SpendCodeStep(s, r, code, clientID, t)
    ensures Linear(t)
  {
    if code in s.store.codes {
      var sid := s.store.codes[code].value.sessionID;
      assert Moves(s, t, Code(code), Held(r), sid, true);
      MovingKeepsLinear(s, t, Code(code), Held(r), sid, true);
    }
  }

  lemma CodeMade(s: Sys, r: nat, code: Id, t: Sys)
    requires Ids(s) && Linear(s) && SaveCodeStep(s, r, code, t)
    ensures Linear(t)
  {
    assert Moves(s, t, Held(r), Code(code), s.reqs[r].sid, true);
    MovingKeepsLinear(s, t, Held(r), Code(code), s.reqs[r].sid, true);
  }

  lemma FirstGrantMoves(s: Sys, r: nat, key: Id, name: Id, t: Sys)
    requires Linear(s) && SaveFirstGrantStep(s, r, key, name, t)
    ensures Linear(t)
  {
    if r in t.reqs {
      assert Moves(s, t, Held(r), Grant(key), s.reqs[r].sid, false);
      MovingKeepsLinear(s, t, Held(r), Grant(key), s.reqs[r].sid, false);
    } else {
      assert OnlyLoses(s, t, r);
      LosingKeepsLinear(s, t, r);
    }
  }

  lemma ClaimMoves(s: Sys, r: nat, t: Sys)
    requires Linear(s) && ClaimStep(s, r, t)
    ensures Linear(t)
  {
    if At(t, r, SavingNext) {
      var c := Grant(s.reqs[r].key);
      assert Moves(s, t, c, Held(r), s.reqs[r].sid, false);
      MovingKeepsLinear(s, t, c, Held(r), s.reqs[r].sid, false);
    } else {
      assert OnlyLoses(s, t, r);
      LosingKeepsLinear(s, t, r);
    }
  }

  lemma NextMoves(s: Sys, r: nat, next: Id, t: Sys)
    requires Linear(s) && SaveNextStep(s, r, next, t)
    ensures Linear(t)
  {
    if r in t.reqs {
      assert Moves(s, t, Held(r), Grant(next), s.reqs[r].sid, false);
      MovingKeepsLinear(s, t, Held(r), Grant(next), s.reqs[r].sid, false);
    } else {
      assert OnlyLoses(s, t, r);
      LosingKeepsLinear(s, t, r);
    }
  }

  lemma HeldIsBorn(s: Sys, c: Credential, sid: Id, pre: bool)
    requires StoreOk(s) && RequestsOk(s) && Holds(s, c, sid, pre)
    ensures sid in s.past.born
  {
    if c.Held? { assert RightAt(s, c.r); }
  }

  lemma SignInIsNew(
    s: Sys, r: nat, sid: Id, name: Id, subject: string, clientID: string, scopes: seq<string>, lifetime: Time, t: Sys)
    requires Ids(s) && PastOk(s.past) && Linear(s)
    requires forall c, x, pre :: Holds(s, c, x, pre) ==> x in s.past.born
    requires SignInStep(s, r, sid, name, subject, clientID, scopes, lifetime, t)
    ensures Linear(t)
  {
    assert forall c, x, pre :: Holds(t, c, x, pre) ==> Holds(s, c, x, pre) || (c == Held(r) && x == sid);
  }

  lemma ConnectionMade(s: Sys, r: nat, t: Sys)
    requires Linear(s) && SaveConnectionStep(s, r, t)
    ensures Linear(t)
  {
    assert Holds(s, Held(r), s.reqs[r].sid, true);
    assert forall c, x, pre :: Holds(t, c, x, pre) ==> Holds(s, c, x, pre) && !(pre && c == Held(r));
  }

  lemma LinearKept(s: Sys, a: Action, t: Sys)
    requires Sound(s) && Linear(s) && Step(s, a, t)
    ensures Linear(t)
  {
    if a.SignIn? {
      forall c, x, pre | Holds(s, c, x, pre) ensures x in s.past.born { HeldIsBorn(s, c, x, pre); }
      SignInIsNew(s, a.r, a.drawn, a.name, a.subject, a.clientID, a.scopes, a.lifetime, t);
    } else if a.SaveTicket? {
      TicketMoves(s, a.r, a.drawn, t);
    } else if a.SpendTicket? {
      TicketMoves(s, a.r, a.presented, t);
    } else if a.SaveCode? {
      CodeMade(s, a.r, a.drawn, t);
    } else if a.SpendCode? {
      CodeSpent(s, a.r, a.presented, a.clientID, t);
    } else if a.SaveFirstGrant? {
      FirstGrantMoves(s, a.r, a.drawn, a.name, t);
    } else if a.SaveConnection? {
      ConnectionMade(s, a.r, t);
    } else if a.Claim? {
      ClaimMoves(s, a.r, t);
    } else if a.SaveNext? {
      NextMoves(s, a.r, a.drawn, t);
    } else {
      LeftAlone(s, a, t);
      LosingKeepsLinear(s, t, Actor(a));
    }
  }

  // A token is claimed once, and answered for once.

  lemma ClaimKeepsClaims(s: Sys, r: nat, t: Sys)
    requires Claims(s) && ClaimStep(s, r, t)
    requires forall o, key :: ClaimedBy(s, o, key) ==> key in s.past.taken
    ensures Claims(t)
  {
    var key := s.reqs[r].key;
    forall o, k | ClaimedBy(t, o, k) && o != r ensures ClaimedBy(s, o, k) {}
    if At(t, r, SavingNext) { assert Unrotated(s, key); }
  }

  lemma RenewalKeepsClaims(s: Sys, r: nat, t: Sys)
    requires Sound(s) && Claims(s) && SaveRenewalStep(s, r, t)
    ensures Claims(t)
  {
    assert RightAt(s, r) && ClaimedBy(s, r, s.reqs[r].key);
    forall o, k | ClaimedBy(t, o, k) ensures ClaimedBy(s, o, k) && o != r {}
  }

  lemma ClaimsKept(s: Sys, a: Action, t: Sys)
    requires Sound(s) && Claims(s) && Step(s, a, t)
    ensures Claims(t)
  {
    if a.Claim? {
      assert forall o, key :: ClaimedBy(s, o, key) ==> RightAt(s, o);
      ClaimKeepsClaims(s, a.r, t);
    } else if a.SaveRenewal? {
      RenewalKeepsClaims(s, a.r, t);
    } else {
      LeftAlone(s, a, t);
      ClaimingNothingKeepsClaims(s, t, Actor(a));
    }
  }

  // The index

  lemma ConnectionKeepsFound(s: Sys, r: nat, t: Sys)
    requires Sound(s) && Linear(s) && Found(s) && SaveConnectionStep(s, r, t)
    ensures Found(t)
  {
    var made := s.reqs[r].sid;
    assert Holds(s, Held(r), made, true);
    forall sid | sid in t.past.answered && sid in t.store.sessions && sid in t.past.connected ensures Listed(t, sid) {
      assert sid != made && Listed(s, sid);
    }
  }

  lemma IndexKeepsFound(s: Sys, r: nat, t: Sys)
    requires Sound(s) && Found(s) && IndexConnectionStep(s, r, t)
    ensures Found(t)
  {
    assert RightAt(s, r);
    forall sid | sid in t.past.answered && sid in t.store.sessions && sid in t.past.connected ensures Listed(t, sid) {
      if sid != s.reqs[r].sid { assert Listed(s, sid); }
    }
  }

  lemma FoundKept(s: Sys, a: Action, t: Sys)
    requires Sound(s) && Linear(s) && Found(s) && Step(s, a, t)
    ensures Found(t)
  {
    if a.SaveConnection? {
      ConnectionKeepsFound(s, a.r, t);
    } else if a.IndexConnection? {
      IndexKeepsFound(s, a.r, t);
    } else {
      LeftAlone(s, a, t);
      KeepingLinesKeepsFound(s, t);
    }
  }

  // Marks

  // A request goes on: what was due stays due.
  lemma DueStays(s: Sys, t: Sys, r: nat, sid: Id)
    requires sid in s.past.born && EndsSoon(s, sid)
    requires forall k :: k in t.store.sessions ==> k in s.store.sessions || k !in s.past.born
    requires forall o :: o in s.reqs && o != r ==> Same(s.reqs, t.reqs, o)
    requires !Due(s, r, sid)
    ensures EndsSoon(t, sid)
  {
    if sid in s.store.sessions {
      var o :| Due(s, o, sid);
      assert Same(s.reqs, t.reqs, o) && Due(t, o, sid);
    }
  }

  ghost predicate MarksOwned(p: Past) {
    && (forall k :: k in p.marked ==> k in p.taken && OwnKey(p, p.marked[k], k) && p.marked[k] in p.born)
    && (forall sid :: sid in p.replayed ==> sid in p.born)
  }

  lemma MarkKeepsMarks(s: Sys, r: nat, t: Sys)
    requires MarksOwned(s.past) && Marks(s) && MarkStep(s, r, t)
    ensures Marks(t)
  {
    if !t.past.faulty {
      forall k | k in t.past.marked ensures Stands(t, k) || EndsSoon(t, t.past.marked[k]) {
        if !Stands(t, k) { DueStays(s, t, r, s.past.marked[k]); }
      }
      forall sid | sid in t.past.replayed ensures EndsSoon(t, sid) { DueStays(s, t, r, sid); }
    }
  }

  lemma PresentKeepsMarks(s: Sys, r: nat, key: Id, clientID: string, t: Sys)
    requires MarksOwned(s.past) && StoreOk(s) && Claims(s) && Marks(s)
    requires PresentRefreshStep(s, r, key, clientID, t) || PresentInVainStep(s, r, key, clientID, t)
    ensures Marks(t)
  {
    if !t.past.faulty {
      forall k | k in t.past.marked ensures Stands(t, k) || EndsSoon(t, t.past.marked[k]) {
        if !Stands(t, k) { DueStays(s, t, r, s.past.marked[k]); }
      }
      forall sid | sid in t.past.replayed ensures EndsSoon(t, sid) {
        if sid in s.past.replayed {
          DueStays(s, t, r, sid);
        } else if key in s.store.refresh {
          assert !Unrotated(s, key) && OwnKey(s.past, sid, key) && GrantOk(s.past, key, s.store.refresh[key]);
          assert Due(t, r, sid);
        } else {
          DueStays(s, t, r, sid);
        }
      }
    }
  }

  lemma MarksKept(s: Sys, a: Action, t: Sys)
    requires Sound(s) && Claims(s) && Marks(s) && Step(s, a, t)
    ensures Marks(t)
  {
    assert MarksOwned(s.past);
    if a.Mark? {
      MarkKeepsMarks(s, a.r, t);
    } else if a.PresentRefresh? || a.PresentInVain? {
      PresentKeepsMarks(s, a.r, a.presented, a.clientID, t);
    } else {
      LeftAlone(s, a, t);
      KeepingMarksKeepsMarks(s, t, Actor(a));
    }
  }

  lemma InvKept(s: Sys, a: Action, t: Sys)
    requires Inv(s) && Step(s, a, t)
    ensures Inv(t) && Grows(s.past, t.past)
  {
    SoundKept(s, a, t);
    LinearKept(s, a, t);
    ClaimsKept(s, a, t);
    FoundKept(s, a, t);
    MarksKept(s, a, t);
  }

  lemma StartIsRight()
    ensures Inv(START)
  {}
}
