/** What holds over every run of the shared-session machine is kept by each action. */
module SharedKept {
  import opened StoreModel
  import opened SharedWays
  import opened Memberships
  import opened SharedMachine
  import opened SharedInvariant
  import opened SharedEffects
  import opened SharedSteps
  import opened SharedReach

  lemma LocalHere(s: Sys, r: nat)
    requires Sound(s)
    ensures Local(s, r)
  {
    if r in s.reqs {
      assert RightAt(s, r);
      if s.reqs[r].sid in s.store.sessions { assert BindingStands(s, s.reqs[r].sid); }
    }
  }

  lemma RightHoldsBeginning(s: Sys, a: Action, t: Sys)
    requires Begins(a)
    requires Sound(s) && Step(s, a, t)
    ensures Right(s, t, Actor(a))
  {
    LocalHere(s, Actor(a));
    if a.Tick? {
      TickRight(s, a.time, t);
    } else if a.BeginSilent? {
      BeginSilentOnward(s, a.r, a.shared, a.client, a.ask, a.way, t);
      BeginSilentRequest(s, a.r, a.shared, a.client, a.ask, a.way, t);
      BeginSilentStore(s, a.r, a.shared, a.client, a.ask, a.way, t);
    } else if a.BeginSignIn? {
      BeginSignInAdvances(s, a.r, a.subject, a.client, a.loginMethod, a.proof, a.shared, t);
      BeginSignInGains(s, a.r, a.subject, a.client, a.loginMethod, a.proof, a.shared, t);
      GainKeepsPast(s.config, s.past, t.past);
      BeginSignInRequest(s, a.r, a.subject, a.client, a.loginMethod, a.proof, a.shared, t);
      BeginSignInStore(s, a.r, a.subject, a.client, a.loginMethod, a.proof, a.shared, t);
    } else if a.Join? {
      JoinOnward(s, a.r, t);
      JoinRequest(s, a.r, t);
      JoinStore(s, a.r, t);
    } else {
      MakeSharedAdvances(s, a.r, a.drawn, t);
      MakeSharedGains(s, a.r, a.drawn, t);
      GainKeepsPast(s.config, s.past, t.past);
      MakeSharedRequest(s, a.r, a.drawn, t);
      MakeSharedStore(s, a.r, a.drawn, t);
    }
  }

  lemma RecordRight(s: Sys, r: nat, t: Sys)
    requires Local(s, r) && Lists(s) && RecordStep(s, r, t)
    ensures Right(s, t, r)
  {
    if s.now < s.reqs[r].record.expiresAt {
      ListedAdvances(s, r, t);
      ListedGains(s, r, t);
      ListedRequest(s, r, t);
    } else {
      UnlistedAdvances(s, r, t);
      UnlistedGains(s, r, t);
      UnlistedRequest(s, r, t);
    }
    GainKeepsPast(s.config, s.past, t.past);
    RecordStore(s, r, t);
  }

  lemma RightHoldsSigning(s: Sys, a: Action, t: Sys)
    requires SignsIn(a)
    requires Sound(s) && Step(s, a, t)
    ensures Right(s, t, Actor(a))
  {
    LocalHere(s, Actor(a));
    if a.Create? {
      CreateAdvances(s, a.r, a.drawn, t);
      CreateGains(s, a.r, a.drawn, t);
      GainKeepsPast(s.config, s.past, t.past);
      CreateRequest(s, a.r, a.drawn, t);
      CreateStore(s, a.r, a.drawn, t);
    } else if a.Record? {
      RecordRight(s, a.r, t);
    } else if a.Check? {
      CheckOnward(s, a.r, t);
      CheckRequest(s, a.r, t);
      CheckStore(s, a.r, t);
    } else {
      SaveCodeAdvances(s, a.r, a.drawn, t);
      SaveCodeGains(s, a.r, a.drawn, t);
      GainKeepsPast(s.config, s.past, t.past);
      SaveCodeRequest(s, a.r, a.drawn, t);
      SaveCodeStore(s, a.r, a.drawn, t);
    }
  }

  lemma RightHoldsEnding(s: Sys, a: Action, t: Sys)
    requires EndsShared(a)
    requires Sound(s) && Step(s, a, t)
    ensures Right(s, t, Actor(a))
  {
    LocalHere(s, Actor(a));
    if a.Drop? {
      DropAdvances(s, a.r, t);
      DropGains(s, a.r, t);
      GainKeepsPast(s.config, s.past, t.past);
      DropRequest(s, a.r, t);
      DropStore(s, a.r, t);
    } else if a.Take? {
      TakeOnward(s, a.r, t);
      TakeRequest(s, a.r, t);
      TakeStore(s, a.r, t);
    } else {
      LogoutRight(s, a.r, a.shared, t);
    }
  }

  lemma RightHoldsEndingApps(s: Sys, a: Action, t: Sys)
    requires EndsApps(a)
    requires Sound(s) && Step(s, a, t)
    ensures Right(s, t, Actor(a))
  {
    LocalHere(s, Actor(a));
    if a.PickEnd? {
      PickEndOnward(s, a.r, a.target, t);
      PickEndRequest(s, a.r, a.target, t);
      PickEndStore(s, a.r, a.target, t);
    } else if a.EndGrant? {
      EndGrantOnward(s, a.r, t);
      EndGrantRequest(s, a.r, t);
      EndGrantStore(s, a.r, t);
    } else if a.EndSession? {
      EndSessionOnward(s, a.r, t);
      EndSessionRequest(s, a.r, t);
      EndSessionStore(s, a.r, t);
    } else {
      EndOverOnward(s, a.r, t);
      EndOverRequest(s, a.r, t);
      EndOverStore(s, a.r, t);
    }
  }

  lemma BindingOnward(s: Sys, r: nat, t: Sys)
    requires Local(s, r) && Linear(s) && SaveBindingStep(s, r, t)
    ensures Onward(s, t)
  {
    assert Holds(s, Held(r), s.reqs[r].sid);
    SaveBindingTokens(s, r, t);
    SaveBindingAdvances(s, r, t);
    SaveBindingGains(s, r, t);
    GainKeepsPast(s.config, s.past, t.past);
  }

  lemma RightHoldsCodes(s: Sys, a: Action, t: Sys)
    requires OfCodes(a)
    requires Sound(s) && Step(s, a, t)
    ensures Right(s, t, Actor(a))
  {
    LocalHere(s, Actor(a));
    if a.SpendCode? {
      SpendCodeOnward(s, a.r, a.presented, a.client, a.thumbprint, t);
      SpendCodeRequest(s, a.r, a.presented, a.client, a.thumbprint, t);
      SpendCodeStore(s, a.r, a.presented, a.client, a.thumbprint, t);
    } else if a.LoadForCode? {
      LoadForCodeOnward(s, a.r, t);
      LoadForCodeRequest(s, a.r, t);
      LoadForCodeStore(s, a.r, t);
    } else if a.SaveGrant? {
      SaveGrantAdvances(s, a.r, a.drawn, a.asked, a.hint, a.baseline, t);
      SaveGrantGains(s, a.r, a.drawn, a.asked, a.hint, a.baseline, t);
      GainKeepsPast(s.config, s.past, t.past);
      SaveGrantRequest(s, a.r, a.drawn, a.asked, a.hint, a.baseline, t);
      SaveGrantStore(s, a.r, a.drawn, a.asked, a.hint, a.baseline, t);
    } else {
      BindingOnward(s, a.r, t);
      SaveBindingRequest(s, a.r, t);
      SaveBindingStore(s, a.r, t);
    }
  }

  lemma RightHoldsRefreshing(s: Sys, a: Action, t: Sys)
    requires a.PresentRefresh? || a.Renew? || a.Refuse? || a.Falter? || a.Crash?
    requires Sound(s) && Step(s, a, t)
    ensures Right(s, t, Actor(a))
  {
    LocalHere(s, Actor(a));
    if a.PresentRefresh? {
      PresentRefreshOnward(s, a.r, a.presented, a.client, a.thumbprint, t);
      PresentRefreshRequest(s, a.r, a.presented, a.client, a.thumbprint, t);
      PresentRefreshStore(s, a.r, a.presented, a.client, a.thumbprint, t);
    } else if a.Renew? {
      RenewTokens(s, a.r, a.asked, a.baseline, t);
      RenewAdvances(s, a.r, a.asked, a.baseline, t);
      RenewGains(s, a.r, a.asked, a.baseline, t);
      GainKeepsPast(s.config, s.past, t.past);
      RenewRequest(s, a.r, a.asked, a.baseline, t);
      RenewStore(s, a.r, a.asked, a.baseline, t);
    } else if a.Refuse? {
      RefuseRight(s, a.r, t);
    } else if a.Falter? {
      FalterOnward(s, a.r, t);
      FalterRequest(s, a.r, t);
      FalterStore(s, a.r, t);
    } else {
      CrashRight(s, a.r, t);
    }
  }

  lemma RightHoldsRevoking(s: Sys, a: Action, t: Sys)
    requires a.PresentRevoke? || a.LoadForRevoke? || a.RevokeSession? || a.RevokeGrant?
    requires Sound(s) && Step(s, a, t)
    ensures Right(s, t, Actor(a))
  {
    LocalHere(s, Actor(a));
    if a.PresentRevoke? {
      PresentRevokeRight(s, a.r, a.presented, a.client, a.thumbprint, t);
    } else if a.LoadForRevoke? {
      LoadForRevokeOnward(s, a.r, t);
      LoadForRevokeRequest(s, a.r, t);
      LoadForRevokeStore(s, a.r, t);
    } else if a.RevokeSession? {
      RevokeSessionOnward(s, a.r, t);
      RevokeSessionRequest(s, a.r, t);
      RevokeSessionStore(s, a.r, t);
    } else {
      RevokeGrantOnward(s, a.r, t);
      RevokeGrantRequest(s, a.r, t);
      RevokeGrantStore(s, a.r, t);
    }
  }

  lemma RightHolds(s: Sys, a: Action, t: Sys)
    requires Sound(s) && Step(s, a, t)
    ensures Right(s, t, Actor(a))
  {
    if Begins(a) {
      RightHoldsBeginning(s, a, t);
    } else if SignsIn(a) {
      RightHoldsSigning(s, a, t);
    } else if EndsShared(a) {
      RightHoldsEnding(s, a, t);
    } else if EndsApps(a) {
      RightHoldsEndingApps(s, a, t);
    } else if OfCodes(a) {
      RightHoldsCodes(s, a, t);
    } else if a.PresentRefresh? || a.Renew? || a.Refuse? || a.Falter? || a.Crash? {
      RightHoldsRefreshing(s, a, t);
    } else {
      RightHoldsRevoking(s, a, t);
    }
  }

  // Makes or ends a shared session, or makes a list or a binding.
  predicate MakesState(a: Action) {
    a.MakeShared? || a.Create? || a.Record? || a.Drop? || a.SaveBinding?
  }

  // Moves a session's credential.
  predicate MovesCredential(a: Action) {
    a.Create? || a.SaveCode? || a.SpendCode? || a.SaveBinding?
  }

  // Answers, or comes nearer to it.
  predicate Answers(a: Action) {
    a.Record? || a.Check? || a.SaveCode?
  }

  /** What an action that does none of that leaves alone; and while lists last, the
      promises every action keeps but a failure. */
  ghost predicate LeavesAlone(s: Sys, a: Action, t: Sys) {
    && (!MakesState(a) ==> KeepsRest(s, t))
    && (!MovesCredential(a) ==> OnlyLoses(s, t, Actor(a)))
    && (!Answers(a) ==> KeepsAnswers(s, t, Actor(a)))
    && (ListsLast(s) && !a.Falter? && !a.Crash? ==> KeepsPromises(s, t, Actor(a)))
  }

  lemma LeftAloneBeginning(s: Sys, a: Action, t: Sys)
    requires Begins(a)
    requires Sound(s) && Step(s, a, t)
    ensures LeavesAlone(s, a, t)
  {
    LocalHere(s, Actor(a));
    if a.Tick? {
      TickLeaves(s, a.time, t);
      if ListsLast(s) { TickPromises(s, a.time, t); }
    } else if a.BeginSilent? {
      BeginSilentLeaves(s, a.r, a.shared, a.client, a.ask, a.way, t);
    } else if a.BeginSignIn? {
      BeginSignInLeaves(s, a.r, a.subject, a.client, a.loginMethod, a.proof, a.shared, t);
    } else if a.Join? {
      JoinLeaves(s, a.r, t);
    } else {
      MakeSharedLeaves(s, a.r, a.drawn, t);
      MakeSharedPromises(s, a.r, a.drawn, t);
    }
  }

  lemma LeftAloneSigning(s: Sys, a: Action, t: Sys)
    requires SignsIn(a)
    requires Sound(s) && Step(s, a, t)
    ensures LeavesAlone(s, a, t)
  {
    LocalHere(s, Actor(a));
    if a.Create? {
      CreateLeaves(s, a.r, a.drawn, t);
    } else if a.Record? {
      RecordLeaves(s, a.r, t);
      if s.now < s.reqs[a.r].record.expiresAt { ListedPromises(s, a.r, t); } else { UnlistedPromises(s, a.r, t); }
    } else if a.Check? {
      CheckLeaves(s, a.r, t);
    } else {
      SaveCodeLeaves(s, a.r, a.drawn, t);
    }
  }

  lemma LeftAloneEnding(s: Sys, a: Action, t: Sys)
    requires EndsShared(a)
    requires Sound(s) && Step(s, a, t)
    ensures LeavesAlone(s, a, t)
  {
    LocalHere(s, Actor(a));
    if a.Drop? {
      DropLeaves(s, a.r, t);
    } else if a.Take? {
      TakeLeaves(s, a.r, t);
      TakePromises(s, a.r, t);
    } else {
      LogoutLeaves(s, a.r, a.shared, t);
    }
  }

  lemma LeftAloneEndingApps(s: Sys, a: Action, t: Sys)
    requires EndsApps(a)
    requires Sound(s) && Step(s, a, t)
    ensures LeavesAlone(s, a, t)
  {
    LocalHere(s, Actor(a));
    if a.PickEnd? {
      PickEndLeaves(s, a.r, a.target, t);
    } else if a.EndGrant? {
      EndGrantLeaves(s, a.r, t);
    } else if a.EndSession? {
      EndSessionLeaves(s, a.r, t);
    } else {
      EndOverLeaves(s, a.r, t);
    }
  }

  lemma LeftAloneCodes(s: Sys, a: Action, t: Sys)
    requires OfCodes(a)
    requires Sound(s) && Step(s, a, t)
    ensures LeavesAlone(s, a, t)
  {
    LocalHere(s, Actor(a));
    if a.SpendCode? {
      SpendCodeLeaves(s, a.r, a.presented, a.client, a.thumbprint, t);
    } else if a.LoadForCode? {
      LoadForCodeLeaves(s, a.r, t);
      LoadForCodePromises(s, a.r, t);
    } else if a.SaveGrant? {
      SaveGrantLeaves(s, a.r, a.drawn, a.asked, a.hint, a.baseline, t);
      SaveGrantPromises(s, a.r, a.drawn, a.asked, a.hint, a.baseline, t);
    } else {
      SaveBindingLeaves(s, a.r, t);
    }
  }

  lemma LeftAloneRefreshing(s: Sys, a: Action, t: Sys)
    requires a.PresentRefresh? || a.Renew? || a.Refuse? || a.Falter? || a.Crash?
    requires Sound(s) && Step(s, a, t)
    ensures LeavesAlone(s, a, t)
  {
    LocalHere(s, Actor(a));
    if a.PresentRefresh? {
      PresentRefreshLeaves(s, a.r, a.presented, a.client, a.thumbprint, t);
    } else if a.Renew? {
      RenewLeaves(s, a.r, a.asked, a.baseline, t);
      RenewPromises(s, a.r, a.asked, a.baseline, t);
    } else if a.Refuse? {
      RefuseLeaves(s, a.r, t);
    } else if a.Falter? {
      FalterLeaves(s, a.r, t);
    } else {
      CrashLeaves(s, a.r, t);
    }
  }

  lemma LeftAloneRevoking(s: Sys, a: Action, t: Sys)
    requires a.PresentRevoke? || a.LoadForRevoke? || a.RevokeSession? || a.RevokeGrant?
    requires Sound(s) && Step(s, a, t)
    ensures LeavesAlone(s, a, t)
  {
    LocalHere(s, Actor(a));
    if a.PresentRevoke? {
      PresentRevokeLeaves(s, a.r, a.presented, a.client, a.thumbprint, t);
    } else if a.LoadForRevoke? {
      LoadForRevokeLeaves(s, a.r, t);
      LoadForRevokePromises(s, a.r, t);
    } else if a.RevokeSession? {
      RevokeSessionLeaves(s, a.r, t);
    } else {
      RevokeGrantLeaves(s, a.r, t);
    }
  }

  lemma LeftAlone(s: Sys, a: Action, t: Sys)
    requires Sound(s) && Step(s, a, t)
    ensures LeavesAlone(s, a, t)
  {
    if Begins(a) {
      LeftAloneBeginning(s, a, t);
    } else if SignsIn(a) {
      LeftAloneSigning(s, a, t);
    } else if EndsShared(a) {
      LeftAloneEnding(s, a, t);
    } else if EndsApps(a) {
      LeftAloneEndingApps(s, a, t);
    } else if OfCodes(a) {
      LeftAloneCodes(s, a, t);
    } else if a.PresentRefresh? || a.Renew? || a.Refuse? || a.Falter? || a.Crash? {
      LeftAloneRefreshing(s, a, t);
    } else {
      LeftAloneRevoking(s, a, t);
    }
  }

  // A binding, a list, a shared session: what makes one.

  lemma MakeSharedKeepsEnded(s: Sys, r: nat, id: Id, t: Sys)
    requires Ids(s) && PastOk(s.config, s.past) && EndedGone(s) && MakeSharedStep(s, r, id, t)
    ensures EndedGone(t)
  {}

  lemma DropKeepsEnded(s: Sys, r: nat, t: Sys)
    requires EndedGone(s) && DropStep(s, r, t)
    ensures EndedGone(t)
  {}

  lemma CreateKeepsBindings(s: Sys, r: nat, sid: Id, t: Sys)
    requires Ids(s) && PastOk(s.config, s.past) && Bindings(s) && CreateStep(s, r, sid, t)
    ensures Bindings(t)
  {
    forall k | k in t.store.sessions ensures BindingStands(t, k) { if k != sid { assert BindingStands(s, k); } }
  }

  lemma SaveBindingKeepsBindings(s: Sys, r: nat, t: Sys)
    requires RightAt(s, r) && Bindings(s) && SaveBindingStep(s, r, t)
    ensures Bindings(t)
  {
    forall k | k in t.store.sessions ensures BindingStands(t, k) {
      if k != s.reqs[r].sid { assert BindingStands(s, k); }
    }
  }

  lemma RecordKeepsLists(s: Sys, r: nat, t: Sys)
    requires RightAt(s, r) && Lists(s) && RecordStep(s, r, t)
    ensures Lists(t)
  {
    var q := s.reqs[r];
    forall k | k in t.store.apps ensures ListOk(t.past, k, t.store.apps[k].value) {
      if k in s.store.apps { assert ListOk(s.past, k, s.store.apps[k].value); }
    }
  }

  lemma RestKept(s: Sys, a: Action, t: Sys)
    requires Sound(s) && Grows(s.past, t.past) && Step(s, a, t)
    ensures Bindings(t) && Lists(t) && EndedGone(t)
  {
    LocalHere(s, Actor(a));
    if a.MakeShared? {
      MakeSharedLeaves(s, a.r, a.drawn, t);
      MakeSharedKeepsEnded(s, a.r, a.drawn, t);
      BindingsStay(s, t);
      ListsStay(s, t);
    } else if a.Create? {
      CreateLeaves(s, a.r, a.drawn, t);
      CreateKeepsBindings(s, a.r, a.drawn, t);
      ListsStay(s, t);
    } else if a.Record? {
      RecordLeaves(s, a.r, t);
      RecordKeepsLists(s, a.r, t);
      BindingsStay(s, t);
    } else if a.Drop? {
      DropLeaves(s, a.r, t);
      DropKeepsEnded(s, a.r, t);
      BindingsStay(s, t);
      ListsStay(s, t);
    } else if a.SaveBinding? {
      SaveBindingLeaves(s, a.r, t);
      SaveBindingKeepsBindings(s, a.r, t);
      ListsStay(s, t);
    } else {
      LeftAlone(s, a, t);
      RestStays(s, t);
    }
  }

  // The one credential of a session: made, kept as a code, spent, used up.

  lemma HeldIsBorn(s: Sys, c: Credential, sid: Id)
    requires StoreOk(s) && RequestsOk(s) && Holds(s, c, sid)
    ensures sid in s.past.born
  {
    if c.Held? { assert RightAt(s, c.r); }
  }

  lemma CreateKeepsLinear(s: Sys, r: nat, sid: Id, t: Sys)
    requires Ids(s) && PastOk(s.config, s.past) && Linear(s) && CreateStep(s, r, sid, t)
    requires forall c, x :: Holds(s, c, x) ==> x in s.past.born
    ensures Linear(t)
  {
    assert forall c, x :: Holds(t, c, x) ==> Holds(s, c, x) || (c == Held(r) && x == sid);
  }

  lemma CodeMoves(s: Sys, r: nat, code: Id, t: Sys)
    requires Sound(s) && SaveCodeStep(s, r, code, t)
    ensures Linear(t)
  {
    assert RightAt(s, r);
    assert Moves(s, t, Held(r), Code(code), s.reqs[r].sid);
    MovingKeepsLinear(s, t, Held(r), Code(code), s.reqs[r].sid);
  }

  lemma CodeSpent(s: Sys, r: nat, code: Id, client: string, thumbprint: string, t: Sys)
    requires Sound(s) && SpendCodeStep(s, r, code, client, thumbprint, t)
    ensures Linear(t)
  {
    if code in s.store.codes {
      var sid := s.store.codes[code].value.sessionID;
      assert Moves(s, t, Code(code), Held(r), sid);
      MovingKeepsLinear(s, t, Code(code), Held(r), sid);
    }
  }

  lemma BindingMade(s: Sys, r: nat, t: Sys)
    requires Sound(s) && SaveBindingStep(s, r, t)
    ensures Linear(t)
  {
    assert RightAt(s, r) && Holds(s, Held(r), s.reqs[r].sid);
    assert forall c, x :: Holds(t, c, x) ==> Holds(s, c, x) && c != Held(r);
  }

  lemma LinearKept(s: Sys, a: Action, t: Sys)
    requires Sound(s) && Step(s, a, t)
    ensures Linear(t)
  {
    if a.Create? {
      forall c, x | Holds(s, c, x) ensures x in s.past.born { HeldIsBorn(s, c, x); }
      CreateKeepsLinear(s, a.r, a.drawn, t);
    } else if a.SaveCode? {
      CodeMoves(s, a.r, a.drawn, t);
    } else if a.SpendCode? {
      CodeSpent(s, a.r, a.presented, a.client, a.thumbprint, t);
    } else if a.SaveBinding? {
      BindingMade(s, a.r, t);
    } else {
      LeftAlone(s, a, t);
      LosingKeepsLinear(s, t, Actor(a));
    }
  }

  lemma SoundKept(s: Sys, a: Action, t: Sys)
    requires Sound(s) && Step(s, a, t)
    ensures Sound(t) && Grows(s.past, t.past) && t.config == s.config
  {
    RightHolds(s, a, t);
    EffectKeepsRequests(s, t, Actor(a));
    EffectKeepsStore(s, t);
    RestKept(s, a, t);
    LinearKept(s, a, t);
  }

  // A sign-out reaches every session answered.

  ghost predicate Intact(s: Sys) {
    !s.past.faulty && !s.past.shortened
  }

  lemma RecordListsLast(s: Sys, r: nat, t: Sys)
    requires RightAt(s, r) && StoreOk(s) && Lists(s) && ListsLast(s) && RecordStep(s, r, t) && Intact(t)
    ensures ListsLast(t)
  {
    var q := s.reqs[r];
    forall sid | Listed(t, sid) && sid in t.store.sessions
      ensures t.store.sessions[sid].expiresAt <= t.store.apps[t.past.born[sid].shared].expires
    {
      assert SessionOk(s.past, sid, s.store.sessions[sid]);
      var b := s.past.born[sid];
      if b.shared == q.shared && sid != q.sid {
        assert b.client in SharedApps(s.store, q.shared) && SharedApps(s.store, q.shared)[b.client] == sid;
      }
    }
  }

  lemma ListsStayLast(s: Sys, t: Sys)
    requires StoreOk(s) && StoreOk(t) && Lists(s) && ListsLast(s) && Grows(s.past, t.past) && KeepsLists(s, t)
    requires NoneComesBack(s, t)
    ensures ListsLast(t)
  {
    forall sid | Listed(t, sid) && sid in t.store.sessions
      ensures t.store.sessions[sid].expiresAt <= t.store.apps[t.past.born[sid].shared].expires
    {
      var id := t.past.born[sid].shared;
      assert Same(s.store.apps, t.store.apps, id) && ListOk(s.past, id, s.store.apps[id].value);
      assert Listed(s, sid);
    }
  }

  lemma ListsKeepLast(s: Sys, a: Action, t: Sys)
    requires Sound(s) && ListsLast(s) && Step(s, a, t) && StoreOk(t) && Grows(s.past, t.past) && Intact(t)
    requires KeepsPromises(s, t, Actor(a))
    ensures ListsLast(t)
  {
    LocalHere(s, Actor(a));
    if a.Record? {
      RecordListsLast(s, a.r, t);
    } else {
      if a.MakeShared? {
        MakeSharedLeaves(s, a.r, a.drawn, t);
      } else if a.Create? {
        CreateLeaves(s, a.r, a.drawn, t);
      } else if a.Drop? {
        DropLeaves(s, a.r, t);
      } else if a.SaveBinding? {
        SaveBindingLeaves(s, a.r, t);
      } else {
        LeftAlone(s, a, t);
      }
      ListsStayLast(s, t);
    }
  }

  /** What request r of the action answers or is about to, new in t. */
  ghost predicate Newcomers(s: Sys, t: Sys, r: nat) {
    && (ToCheck(t, r) ==> Listed(t, t.reqs[r].sid) || (ToCheck(s, r) && s.reqs[r].sid == t.reqs[r].sid))
    && (Answering(t, r) ==> Reached(t, t.reqs[r].sid) || (Answering(s, r) && s.reqs[r].sid == t.reqs[r].sid))
    && (forall sid :: sid in t.past.covered ==>
                        sid in s.past.covered || (Answering(s, r) && s.reqs[r].sid == sid) || Reached(t, sid))
  }

  lemma CoveredIsReached(s: Sys, r: nat, t: Sys)
    requires RightAt(s, r) && At(s, r, Recording) && ListedStep(s, r, t) && NowCovered(s, s.reqs[r], true) != {}
    ensures Reached(t, s.reqs[r].sid)
  {
    var q := s.reqs[r];
    if q.sid in s.store.sessions && q.shared in s.past.ends {
      var o :| o in s.reqs && s.reqs[o].pc == Taking && s.reqs[o].shared == q.shared;
      assert Takes(t, o, q.shared);
    }
  }

  lemma ListedAnswers(s: Sys, r: nat, t: Sys)
    requires RightAt(s, r) && At(s, r, Recording) && ListedStep(s, r, t)
    ensures Newcomers(s, t, r)
  {
    if NowCovered(s, s.reqs[r], true) != {} { CoveredIsReached(s, r, t); }
  }

  lemma UnlistedAnswers(s: Sys, r: nat, t: Sys)
    requires RightAt(s, r) && At(s, r, Recording) && UnlistedStep(s, r, t)
    ensures Newcomers(s, t, r)
  {}

  lemma RecordAnswers(s: Sys, r: nat, t: Sys)
    requires RightAt(s, r) && RecordStep(s, r, t)
    ensures Newcomers(s, t, r)
  {
    if s.now < s.reqs[r].record.expiresAt { ListedAnswers(s, r, t); } else { UnlistedAnswers(s, r, t); }
  }

  lemma CheckAnswers(s: Sys, r: nat, t: Sys)
    requires RightAt(s, r) && EndedGone(s) && Recorded(s, s.reqs[r].sid) && CheckStep(s, r, t)
    ensures Newcomers(s, t, r)
  {
    var sid := s.reqs[r].sid;
    if o :| Owes(s, o, sid) { assert Owes(t, o, sid) || o == r; }
  }

  lemma SaveCodeAnswers(s: Sys, r: nat, code: Id, t: Sys)
    requires SaveCodeStep(s, r, code, t)
    ensures Newcomers(s, t, r)
  {}

  lemma RecordNewcomers(s: Sys, r: nat, t: Sys)
    requires RequestsOk(s) && RecordStep(s, r, t)
    ensures Newcomers(s, t, r)
  {
    assert RightAt(s, r);
    RecordAnswers(s, r, t);
  }

  lemma CheckNewcomers(s: Sys, r: nat, t: Sys)
    requires RequestsOk(s) && EndedGone(s) && SignOuts(s) && Intact(s) && CheckStep(s, r, t)
    ensures Newcomers(s, t, r)
  {
    assert RightAt(s, r) && ToCheck(s, r);
    CheckAnswers(s, r, t);
  }

  lemma NewcomersKept(s: Sys, a: Action, t: Sys)
    requires Sound(s) && SignOuts(s) && Intact(s) && Step(s, a, t)
    ensures Newcomers(s, t, Actor(a))
  {
    if a.Record? {
      RecordNewcomers(s, a.r, t);
    } else if a.Check? {
      CheckNewcomers(s, a.r, t);
    } else if a.SaveCode? {
      SaveCodeAnswers(s, a.r, a.drawn, t);
    } else {
      LeftAlone(s, a, t);
    }
  }

  lemma ToCheckKept(s: Sys, t: Sys, r: nat, o: nat)
    requires Sound(s) && SignOuts(s) && Intact(s) && Grows(s.past, t.past)
    requires KeepsPromises(s, t, r) && Newcomers(s, t, r)
    requires o == r || Same(s.reqs, t.reqs, o)
    ensures ToCheck(t, o) ==> Recorded(t, t.reqs[o].sid)
  {
    if ToCheck(s, o) && ToCheck(t, o) && s.reqs[o].sid == t.reqs[o].sid {
      assert RightAt(s, o);
      RecordedStays(s, t, r, s.reqs[o].sid);
    }
  }

  lemma AnsweringKept(s: Sys, t: Sys, r: nat, o: nat)
    requires Sound(s) && SignOuts(s) && Intact(s) && Grows(s.past, t.past)
    requires KeepsPromises(s, t, r) && Newcomers(s, t, r)
    requires o == r || Same(s.reqs, t.reqs, o)
    ensures Answering(t, o) ==> Reached(t, t.reqs[o].sid)
  {
    if Answering(s, o) && Answering(t, o) && s.reqs[o].sid == t.reqs[o].sid {
      assert RightAt(s, o);
      ReachedStays(s, t, r, s.reqs[o].sid);
    }
  }

  lemma AnsweredKept(s: Sys, t: Sys, r: nat, sid: Id)
    requires Sound(s) && SignOuts(s) && Intact(s) && Grows(s.past, t.past)
    requires KeepsPromises(s, t, r) && Newcomers(s, t, r) && sid in t.past.covered
    ensures Reached(t, sid)
  {
    if Answering(s, r) && s.reqs[r].sid == sid {
      assert RightAt(s, r);
      ReachedStays(s, t, r, sid);
    } else if sid in s.past.covered {
      ReachedStays(s, t, r, sid);
    }
  }

  lemma AnswersKept(s: Sys, t: Sys, r: nat)
    requires Sound(s) && SignOuts(s) && Intact(s) && Grows(s.past, t.past)
    requires KeepsPromises(s, t, r) && Newcomers(s, t, r) && ListsLast(t)
    requires forall o :: o in t.reqs && o != r ==> Same(s.reqs, t.reqs, o)
    ensures SignOuts(t)
  {
    forall o | ToCheck(t, o) ensures Recorded(t, t.reqs[o].sid) { ToCheckKept(s, t, r, o); }
    forall o | Answering(t, o) ensures Reached(t, t.reqs[o].sid) { AnsweringKept(s, t, r, o); }
    forall sid | sid in t.past.covered ensures Reached(t, sid) { AnsweredKept(s, t, r, sid); }
  }

  lemma SignOutsKept(s: Sys, a: Action, t: Sys)
    requires Sound(s) && SignOuts(s) && Step(s, a, t) && StoreOk(t) && RequestEffect(s, t, Actor(a))
    requires Grows(s.past, t.past)
    ensures SignOuts(t)
  {
    if Intact(t) {
      assert !a.Falter? && !a.Crash?;
      LeftAlone(s, a, t);
      ListsKeepLast(s, a, t);
      NewcomersKept(s, a, t);
      AnswersKept(s, t, Actor(a));
    }
  }

  lemma InvKept(s: Sys, a: Action, t: Sys)
    requires Inv(s) && Step(s, a, t)
    ensures Inv(t) && Grows(s.past, t.past) && t.config == s.config
  {
    SoundKept(s, a, t);
    RightHolds(s, a, t);
    SignOutsKept(s, a, t);
    JudgedKept(s, a, t);
  }

  lemma StartIsRight(config: Config)
    requires 0 < config.ttl
    ensures Inv(Start(config))
  {}
}
