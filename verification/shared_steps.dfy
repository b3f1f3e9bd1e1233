/** Every action of the shared-session machine, one by one: what it leaves right,
    and what it leaves alone. */
module SharedSteps {
  import opened StoreModel
  import opened SharedWays
  import opened Memberships
  import opened SharedMachine
  import opened SharedInvariant
  import opened SharedEffects
  import opened SignInAge

  lemma TickRight(s: Sys, time: Time, t: Sys)
    requires Local(s, 0) && TickStep(s, time, t)
    ensures Right(s, t, 0)
  {}

  lemma BeginSilentOnward(s: Sys, r: nat, shared: Id, client: string, ask: SilentAsk, way: Way, t: Sys)
    requires Ids(s) && PastOk(s.config, s.past) && BeginSilentStep(s, r, shared, client, ask, way, t)
    ensures Onward(s, t)
  {}

  lemma BeginSilentRequest(s: Sys, r: nat, shared: Id, client: string, ask: SilentAsk, way: Way, t: Sys)
    requires Ids(s) && SharedRight(s, shared) && BeginSilentStep(s, r, shared, client, ask, way, t)
    ensures RequestEffect(s, t, r)
  {}

  lemma BeginSilentStore(s: Sys, r: nat, shared: Id, client: string, ask: SilentAsk, way: Way, t: Sys)
    requires BeginSilentStep(s, r, shared, client, ask, way, t)
    ensures StoreEffect(s, t)
  {}

  lemma JoiningRequest(
    s: Sys, r: nat, subject: string, client: string, loginMethod: string, proof: Proof, shared: Id, t: Sys)
    requires Ids(s) && shared in s.store.shared && s.store.shared[shared].subject == subject
    requires SharedRight(s, shared) && BeginSignInStep(s, r, subject, client, loginMethod, proof, shared, t)
    ensures RequestEffect(s, t, r)
  {
    var way := NewWay(s, loginMethod, Moment(proof, s.now).value);
    KeptIsRight(s.config, t.past, subject, s.store.shared[shared], way);
  }

  lemma NotJoiningRequest(
    s: Sys, r: nat, subject: string, client: string, loginMethod: string, proof: Proof, shared: Id, t: Sys)
    requires shared == 0 || (shared in s.store.shared && s.store.shared[shared].subject != subject)
    requires Ids(s) && Loaded(s, r) && SharedRight(s, shared)
    requires BeginSignInStep(s, r, subject, client, loginMethod, proof, shared, t)
    ensures RequestEffect(s, t, r)
  {}

  lemma BeginSignInAdvances(
    s: Sys, r: nat, subject: string, client: string, loginMethod: string, proof: Proof, shared: Id, t: Sys)
    requires Ids(s) && BeginSignInStep(s, r, subject, client, loginMethod, proof, shared, t)
    ensures Advances(s, t)
  {}

  lemma BeginSignInGains(
    s: Sys, r: nat, subject: string, client: string, loginMethod: string, proof: Proof, shared: Id, t: Sys)
    requires PastOk(s.config, s.past) && BeginSignInStep(s, r, subject, client, loginMethod, proof, shared, t)
    ensures PastGain(t.config, s.past, t.past)
  {}

  lemma BeginSignInRequest(
    s: Sys, r: nat, subject: string, client: string, loginMethod: string, proof: Proof, shared: Id, t: Sys)
    requires Ids(s) && SharedRight(s, shared) && BeginSignInStep(s, r, subject, client, loginMethod, proof, shared, t)
    ensures RequestEffect(s, t, r)
  {
    if shared != 0 && s.store.shared[shared].subject == subject {
      JoiningRequest(s, r, subject, client, loginMethod, proof, shared, t);
    } else {
      NotJoiningRequest(s, r, subject, client, loginMethod, proof, shared, t);
    }
  }

  lemma BeginSignInStore(
    s: Sys, r: nat, subject: string, client: string, loginMethod: string, proof: Proof, shared: Id, t: Sys)
    requires Ids(s) && StoreOk(s) && BeginSignInStep(s, r, subject, client, loginMethod, proof, shared, t)
    ensures StoreEffect(s, t)
  {}

  lemma JoinOnward(s: Sys, r: nat, t: Sys)
    requires Local(s, r) && JoinStep(s, r, t)
    ensures Onward(s, t)
  {}

  lemma JoinRequest(s: Sys, r: nat, t: Sys)
    requires Loaded(s, r) && JoinStep(s, r, t)
    ensures RequestEffect(s, t, r)
  {}

  lemma JoinStore(s: Sys, r: nat, t: Sys)
    requires Loaded(s, r) && JoinStep(s, r, t)
    ensures StoreEffect(s, t)
  {}

  lemma MakeSharedAdvances(s: Sys, r: nat, id: Id, t: Sys)
    requires Ids(s) && MakeSharedStep(s, r, id, t)
    ensures Advances(s, t)
  {}

  lemma MakeSharedGains(s: Sys, r: nat, id: Id, t: Sys)
    requires PastOk(s.config, s.past) && MakeSharedStep(s, r, id, t)
    ensures PastGain(t.config, s.past, t.past)
  {}

  lemma MakeSharedRequest(s: Sys, r: nat, id: Id, t: Sys)
    requires RightAt(s, r) && Grows(s.past, t.past) && MakeSharedStep(s, r, id, t)
    ensures RequestEffect(s, t, r)
  {
    if r in t.reqs {
      var q := s.reqs[r];
      RequestStays(s.config, s.past, t.past, q);
      KeptIsRight(s.config, t.past, q.subject, Shared(q.subject, [], 0), q.way);
      MadeStands(s.config, t.past, q, id, t.reqs[r].record);
    }
  }

  lemma MakeSharedStore(s: Sys, r: nat, id: Id, t: Sys)
    requires Loaded(s, r) && MakeSharedStep(s, r, id, t)
    ensures StoreEffect(s, t)
  {}

  lemma CreateAdvances(s: Sys, r: nat, sid: Id, t: Sys)
    requires Ids(s) && CreateStep(s, r, sid, t)
    ensures Advances(s, t)
  {}

  lemma CreateGains(s: Sys, r: nat, sid: Id, t: Sys)
    requires PastOk(s.config, s.past) && RightAt(s, r) && CreateStep(s, r, sid, t)
    ensures PastGain(t.config, s.past, t.past)
  {}

  lemma CreateRequest(s: Sys, r: nat, sid: Id, t: Sys)
    requires Ids(s) && Loaded(s, r) && CreateStep(s, r, sid, t)
    ensures RequestEffect(s, t, r)
  {}

  lemma CreateStore(s: Sys, r: nat, sid: Id, t: Sys)
    requires CreateStep(s, r, sid, t)
    ensures StoreEffect(s, t)
  {}

  lemma ListedAdvances(s: Sys, r: nat, t: Sys)
    requires Ids(s) && At(s, r, Recording) && ListedStep(s, r, t)
    ensures Advances(s, t)
  {}

  lemma ListedGains(s: Sys, r: nat, t: Sys)
    requires PastOk(s.config, s.past) && RightAt(s, r) && At(s, r, Recording) && ListedStep(s, r, t)
    ensures PastGain(t.config, s.past, t.past)
  {}

  lemma UnlistedAdvances(s: Sys, r: nat, t: Sys)
    requires Ids(s) && At(s, r, Recording) && UnlistedStep(s, r, t)
    ensures Advances(s, t)
  {}

  lemma UnlistedGains(s: Sys, r: nat, t: Sys)
    requires PastOk(s.config, s.past) && RightAt(s, r) && At(s, r, Recording) && UnlistedStep(s, r, t)
    ensures PastGain(t.config, s.past, t.past)
  {}

  lemma ListedRequest(s: Sys, r: nat, t: Sys)
    requires RightAt(s, r) && Lists(s) && At(s, r, Recording) && ListedStep(s, r, t) && Grows(s.past, t.past)
    ensures RequestEffect(s, t, r)
  {
    var q := s.reqs[r];
    NextStands(s.config, s.past, q, t.reqs[r].ending);
    GoesOnRight(s, t, r, WithNext(q, t.reqs[r].ending));
  }

  lemma UnlistedRequest(s: Sys, r: nat, t: Sys)
    requires RightAt(s, r) && At(s, r, Recording) && UnlistedStep(s, r, t) && Grows(s.past, t.past)
    ensures RequestEffect(s, t, r)
  {
    UnlistedStands(s.config, s.past, s.reqs[r]);
    GoesOnRight(s, t, r, t.reqs[r]);
  }

  lemma RecordStore(s: Sys, r: nat, t: Sys)
    requires RecordStep(s, r, t)
    ensures StoreEffect(s, t)
  {}

  lemma CheckOnward(s: Sys, r: nat, t: Sys)
    requires Ids(s) && PastOk(s.config, s.past) && RightAt(s, r) && CheckStep(s, r, t)
    ensures Onward(s, t)
  {}

  lemma CheckRequest(s: Sys, r: nat, t: Sys)
    requires RightAt(s, r) && CheckStep(s, r, t)
    ensures RequestEffect(s, t, r)
  {
    CheckedStands(s.config, s.past, s.reqs[r]);
    GoesOnRight(s, t, r, t.reqs[r]);
  }

  lemma CheckStore(s: Sys, r: nat, t: Sys)
    requires CheckStep(s, r, t)
    ensures StoreEffect(s, t)
  {}

  lemma SaveCodeAdvances(s: Sys, r: nat, code: Id, t: Sys)
    requires Ids(s) && SaveCodeStep(s, r, code, t)
    ensures Advances(s, t)
  {}

  lemma SaveCodeGains(s: Sys, r: nat, code: Id, t: Sys)
    requires PastOk(s.config, s.past) && RightAt(s, r) && SaveCodeStep(s, r, code, t)
    ensures PastGain(t.config, s.past, t.past)
  {}

  lemma SaveCodeRequest(s: Sys, r: nat, code: Id, t: Sys)
    requires RightAt(s, r) && SaveCodeStep(s, r, code, t)
    ensures RequestEffect(s, t, r)
  {}

  lemma SaveCodeStore(s: Sys, r: nat, code: Id, t: Sys)
    requires Loaded(s, r) && SaveCodeStep(s, r, code, t)
    ensures StoreEffect(s, t)
  {}

  lemma DropAdvances(s: Sys, r: nat, t: Sys)
    requires Ids(s) && DropStep(s, r, t)
    ensures Advances(s, t)
  {}

  lemma DropGains(s: Sys, r: nat, t: Sys)
    requires PastOk(s.config, s.past) && Ids(s) && EndedGone(s) && DropStep(s, r, t)
    ensures PastGain(t.config, s.past, t.past)
  {}

  lemma DropRequest(s: Sys, r: nat, t: Sys)
    requires Loaded(s, r) && DropStep(s, r, t)
    ensures RequestEffect(s, t, r)
  {}

  lemma DropStore(s: Sys, r: nat, t: Sys)
    requires EndedGone(s) && DropStep(s, r, t)
    ensures StoreEffect(s, t)
  {}

  lemma TakeOnward(s: Sys, r: nat, t: Sys)
    requires Ids(s) && PastOk(s.config, s.past) && TakeStep(s, r, t)
    ensures Onward(s, t)
  {}

  lemma TakeRequest(s: Sys, r: nat, t: Sys)
    requires RightAt(s, r) && Lists(s) && TakeStep(s, r, t)
    ensures RequestEffect(s, t, r)
  {}

  lemma TakeStore(s: Sys, r: nat, t: Sys)
    requires TakeStep(s, r, t)
    ensures StoreEffect(s, t)
  {}

  lemma PickEndOnward(s: Sys, r: nat, target: Id, t: Sys)
    requires Local(s, r) && PickEndStep(s, r, target, t)
    ensures Onward(s, t)
  {}

  lemma PickEndRequest(s: Sys, r: nat, target: Id, t: Sys)
    requires Loaded(s, r) && PickEndStep(s, r, target, t)
    ensures RequestEffect(s, t, r)
  {}

  lemma PickEndStore(s: Sys, r: nat, target: Id, t: Sys)
    requires PickEndStep(s, r, target, t)
    ensures StoreEffect(s, t)
  {}

  lemma EndGrantOnward(s: Sys, r: nat, t: Sys)
    requires Local(s, r) && EndGrantStep(s, r, t)
    ensures Onward(s, t)
  {}

  lemma EndGrantRequest(s: Sys, r: nat, t: Sys)
    requires RightAt(s, r) && EndGrantStep(s, r, t)
    ensures RequestEffect(s, t, r)
  {
    FalteredStands(s.config, s.past, s.reqs[r]);
    GoesOnRight(s, t, r, Faltered(s.reqs[r]));
  }

  lemma EndGrantStore(s: Sys, r: nat, t: Sys)
    requires EndGrantStep(s, r, t)
    ensures StoreEffect(s, t)
  {}

  lemma EndSessionOnward(s: Sys, r: nat, t: Sys)
    requires Local(s, r) && EndSessionStep(s, r, t)
    ensures Onward(s, t)
  {}

  lemma EndSessionRequest(s: Sys, r: nat, t: Sys)
    requires RightAt(s, r) && EndSessionStep(s, r, t)
    ensures RequestEffect(s, t, r)
  {}

  lemma EndSessionStore(s: Sys, r: nat, t: Sys)
    requires EndSessionStep(s, r, t)
    ensures StoreEffect(s, t)
  {}

  lemma EndOverOnward(s: Sys, r: nat, t: Sys)
    requires Ids(s) && PastOk(s.config, s.past) && RightAt(s, r) && EndOverStep(s, r, t)
    ensures Onward(s, t)
  {}

  lemma EndOverRequest(s: Sys, r: nat, t: Sys)
    requires Loaded(s, r) && EndOverStep(s, r, t)
    ensures RequestEffect(s, t, r)
  {}

  lemma EndOverStore(s: Sys, r: nat, t: Sys)
    requires EndOverStep(s, r, t)
    ensures StoreEffect(s, t)
  {}

  lemma LogoutRight(s: Sys, r: nat, shared: Id, t: Sys)
    requires Ids(s) && PastOk(s.config, s.past) && LogoutStep(s, r, shared, t)
    ensures Right(s, t, r)
  {}

  lemma SpendCodeOnward(s: Sys, r: nat, code: Id, client: string, thumbprint: string, t: Sys)
    requires Local(s, r) && StoreOk(s) && SpendCodeStep(s, r, code, client, thumbprint, t)
    ensures Onward(s, t)
  {}

  lemma SpendCodeRequest(s: Sys, r: nat, code: Id, client: string, thumbprint: string, t: Sys)
    requires Ids(s) && StoreOk(s) && SpendCodeStep(s, r, code, client, thumbprint, t)
    ensures RequestEffect(s, t, r)
  {}

  lemma SpendCodeStore(s: Sys, r: nat, code: Id, client: string, thumbprint: string, t: Sys)
    requires StoreOk(s) && SpendCodeStep(s, r, code, client, thumbprint, t)
    ensures StoreEffect(s, t)
  {}

  lemma LoadForCodeOnward(s: Sys, r: nat, t: Sys)
    requires Local(s, r) && LoadForCodeStep(s, r, t)
    ensures Onward(s, t)
  {}

  lemma LoadForCodeRequest(s: Sys, r: nat, t: Sys)
    requires Loaded(s, r) && LoadForCodeStep(s, r, t)
    ensures RequestEffect(s, t, r)
  {}

  lemma LoadForCodeStore(s: Sys, r: nat, t: Sys)
    requires LoadForCodeStep(s, r, t)
    ensures StoreEffect(s, t)
  {}

  lemma SaveGrantAdvances(s: Sys, r: nat, key: Id, asked: seq<Membership>, hint: string, baseline: seq<string>, t: Sys)
    requires Ids(s) && SaveGrantStep(s, r, key, asked, hint, baseline, t)
    ensures Advances(s, t)
  {}

  lemma SaveGrantGains(s: Sys, r: nat, key: Id, asked: seq<Membership>, hint: string, baseline: seq<string>, t: Sys)
    requires PastOk(s.config, s.past) && RightAt(s, r) && SaveGrantStep(s, r, key, asked, hint, baseline, t)
    ensures PastGain(t.config, s.past, t.past)
  {}

  lemma SaveGrantRequest(s: Sys, r: nat, key: Id, asked: seq<Membership>, hint: string, baseline: seq<string>, t: Sys)
    requires RightAt(s, r) && Grows(s.past, t.past) && SaveGrantStep(s, r, key, asked, hint, baseline, t)
    ensures RequestEffect(s, t, r)
  {
    if r in t.reqs {
      RequestStays(s.config, s.past, t.past, s.reqs[r]);
      var out := UserScopes(s.reqs[r].client in s.config.membersOnly, baseline, asked, hint).value;
      GrantStands(s.config, t.past, s.reqs[r], key, t.reqs[r].token, out);
    }
  }

  lemma SaveGrantStore(s: Sys, r: nat, key: Id, asked: seq<Membership>, hint: string, baseline: seq<string>, t: Sys)
    requires Loaded(s, r) && SaveGrantStep(s, r, key, asked, hint, baseline, t)
    ensures StoreEffect(s, t)
  {}

  lemma SaveBindingTokens(s: Sys, r: nat, t: Sys)
    requires Local(s, r) && Linear(s) && SaveBindingStep(s, r, t)
    ensures TokensOk(t.config, t.past)
  {
    assert Holds(s, Held(r), s.reqs[r].sid);
  }

  lemma SaveBindingAdvances(s: Sys, r: nat, t: Sys)
    requires Ids(s) && RightAt(s, r) && s.reqs[r].sid !in s.past.bound && SaveBindingStep(s, r, t)
    ensures Advances(s, t)
  {}

  lemma SaveBindingGains(s: Sys, r: nat, t: Sys)
    requires PastOk(s.config, s.past) && RightAt(s, r) && TokensOk(t.config, t.past) && SaveBindingStep(s, r, t)
    ensures PastGain(t.config, s.past, t.past)
  {}

  lemma SaveBindingRequest(s: Sys, r: nat, t: Sys)
    requires RightAt(s, r) && Linear(s) && SaveBindingStep(s, r, t)
    ensures RequestEffect(s, t, r)
  {
    assert Holds(s, Held(r), s.reqs[r].sid);
  }

  lemma SaveBindingStore(s: Sys, r: nat, t: Sys)
    requires Loaded(s, r) && Linear(s) && SaveBindingStep(s, r, t)
    ensures StoreEffect(s, t)
  {
    assert Holds(s, Held(r), s.reqs[r].sid);
  }

  lemma PresentRefreshOnward(s: Sys, r: nat, key: Id, client: string, thumbprint: string, t: Sys)
    requires Local(s, r) && StoreOk(s) && PresentRefreshStep(s, r, key, client, thumbprint, t)
    ensures Onward(s, t)
  {}

  lemma PresentRefreshRequest(s: Sys, r: nat, key: Id, client: string, thumbprint: string, t: Sys)
    requires Ids(s) && StoreOk(s)
    requires PresentRefreshStep(s, r, key, client, thumbprint, t)
    ensures RequestEffect(s, t, r)
  {}

  lemma PresentRefreshStore(s: Sys, r: nat, key: Id, client: string, thumbprint: string, t: Sys)
    requires StoreOk(s) && PresentRefreshStep(s, r, key, client, thumbprint, t)
    ensures StoreEffect(s, t)
  {}

  // What a renewal answers fits the session it renews.
  lemma RenewedFits(s: Sys, q: Request, asked: seq<Membership>, baseline: seq<string>)
    requires PastOk(s.config, s.past) && LoadsRight(s, q.sid) && q.sid in s.store.sessions
    requires q.sid in s.past.born && q.client == s.past.born[q.sid].client
    requires s.store.sessions[q.sid].thumbprint != "" && s.store.sessions[q.sid].thumbprint == q.thumbprint
    requires var sess := s.store.sessions[q.sid];
             UserScopes(sess.clientID in s.config.membersOnly, baseline, asked, sess.tenant).Some?
    ensures var sess := s.store.sessions[q.sid];
            var out := UserScopes(sess.clientID in s.config.membersOnly, baseline, asked, sess.tenant).value;
            TokenOk(s.config, s.past, Token(q.sid, q.client, q.thumbprint, asked, sess.tenant, out))
  {
    var sess := s.store.sessions[q.sid];
    var out := UserScopes(sess.clientID in s.config.membersOnly, baseline, asked, sess.tenant).value;
    RenewalFits(s.config, s.past, q.sid, sess, asked, baseline, out);
  }

  lemma TokenAdded(c: Config, p: Past, token: Token)
    requires TokensOk(c, p) && TokenOk(c, p, token)
    ensures TokensOk(c, p.(tokens := p.tokens + {token}))
  {}

  lemma RenewTokens(s: Sys, r: nat, asked: seq<Membership>, baseline: seq<string>, t: Sys)
    requires PastOk(s.config, s.past) && Loaded(s, r) && RenewStep(s, r, asked, baseline, t)
    ensures TokensOk(t.config, t.past)
  {
    var q := s.reqs[r];
    if t.past != s.past {
      RenewedFits(s, q, asked, baseline);
      var sess := s.store.sessions[q.sid];
      var out := UserScopes(sess.clientID in s.config.membersOnly, baseline, asked, sess.tenant).value;
      TokenAdded(s.config, s.past, Token(q.sid, q.client, q.thumbprint, asked, sess.tenant, out));
    }
  }

  lemma RenewAdvances(s: Sys, r: nat, asked: seq<Membership>, baseline: seq<string>, t: Sys)
    requires Ids(s) && RenewStep(s, r, asked, baseline, t)
    ensures Advances(s, t)
  {}

  lemma RenewGains(s: Sys, r: nat, asked: seq<Membership>, baseline: seq<string>, t: Sys)
    requires PastOk(s.config, s.past) && TokensOk(t.config, t.past) && RenewStep(s, r, asked, baseline, t)
    ensures PastGain(t.config, s.past, t.past)
  {}

  lemma RenewRequest(s: Sys, r: nat, asked: seq<Membership>, baseline: seq<string>, t: Sys)
    requires Loaded(s, r) && RenewStep(s, r, asked, baseline, t)
    ensures RequestEffect(s, t, r)
  {}

  lemma RenewStore(s: Sys, r: nat, asked: seq<Membership>, baseline: seq<string>, t: Sys)
    requires Ids(s) && RenewStep(s, r, asked, baseline, t)
    ensures StoreEffect(s, t)
  {}

  lemma PresentRevokeRight(s: Sys, r: nat, key: Id, client: string, thumbprint: string, t: Sys)
    requires Local(s, r) && PresentRevokeStep(s, r, key, client, thumbprint, t)
    ensures Right(s, t, r)
  {}

  lemma LoadForRevokeOnward(s: Sys, r: nat, t: Sys)
    requires Local(s, r) && LoadForRevokeStep(s, r, t)
    ensures Onward(s, t)
  {}

  lemma LoadForRevokeRequest(s: Sys, r: nat, t: Sys)
    requires RightAt(s, r) && LoadForRevokeStep(s, r, t)
    ensures RequestEffect(s, t, r)
  {
    if r in t.reqs {
      RevokingStands(s.config, s.past, s.reqs[r], t.reqs[r].shared);
      GoesOnRight(s, t, r, t.reqs[r]);
    }
  }

  lemma LoadForRevokeStore(s: Sys, r: nat, t: Sys)
    requires LoadForRevokeStep(s, r, t)
    ensures StoreEffect(s, t)
  {}

  lemma RevokeSessionOnward(s: Sys, r: nat, t: Sys)
    requires Ids(s) && PastOk(s.config, s.past) && RightAt(s, r) && RevokeSessionStep(s, r, t)
    ensures Onward(s, t)
  {}

  lemma RevokeSessionRequest(s: Sys, r: nat, t: Sys)
    requires RightAt(s, r) && RevokeSessionStep(s, r, t)
    ensures RequestEffect(s, t, r)
  {}

  lemma RevokeSessionStore(s: Sys, r: nat, t: Sys)
    requires RevokeSessionStep(s, r, t)
    ensures StoreEffect(s, t)
  {}

  lemma RevokeGrantOnward(s: Sys, r: nat, t: Sys)
    requires Ids(s) && PastOk(s.config, s.past) && RightAt(s, r) && RevokeGrantStep(s, r, t)
    ensures Onward(s, t)
  {}

  lemma RevokeGrantRequest(s: Sys, r: nat, t: Sys)
    requires Loaded(s, r) && RevokeGrantStep(s, r, t)
    ensures RequestEffect(s, t, r)
  {}

  lemma RevokeGrantStore(s: Sys, r: nat, t: Sys)
    requires RevokeGrantStep(s, r, t)
    ensures StoreEffect(s, t)
  {}

  lemma RefuseRight(s: Sys, r: nat, t: Sys)
    requires Local(s, r) && RefuseStep(s, r, t)
    ensures Right(s, t, r)
  {}

  lemma FalterOnward(s: Sys, r: nat, t: Sys)
    requires Ids(s) && PastOk(s.config, s.past) && RightAt(s, r) && FalterStep(s, r, t)
    ensures Onward(s, t)
  {}

  lemma FalterRequest(s: Sys, r: nat, t: Sys)
    requires RightAt(s, r) && FalterStep(s, r, t) && Grows(s.past, t.past)
    ensures RequestEffect(s, t, r)
  {
    FalteredStands(s.config, s.past, s.reqs[r]);
    GoesOnRight(s, t, r, Faltered(s.reqs[r]));
  }

  lemma FalterStore(s: Sys, r: nat, t: Sys)
    requires FalterStep(s, r, t)
    ensures StoreEffect(s, t)
  {}

  lemma CrashRight(s: Sys, r: nat, t: Sys)
    requires Ids(s) && PastOk(s.config, s.past) && RightAt(s, r) && CrashStep(s, r, t)
    ensures Right(s, t, r)
  {}

  lemma TickLeaves(s: Sys, time: Time, t: Sys)
    requires TickStep(s, time, t)
    ensures KeepsRest(s, t) && OnlyLoses(s, t, 0) && KeepsAnswers(s, t, 0)
  {}

  lemma TickPromises(s: Sys, time: Time, t: Sys)
    requires ListsLast(s) && TickStep(s, time, t)
    ensures KeepsPromises(s, t, 0)
  {
    forall sid | Listed(s, sid) && sid in t.store.sessions ensures Listed(t, sid) { TickListed(s, time, t, sid); }
  }

  lemma TickListed(s: Sys, time: Time, t: Sys, sid: Id)
    requires ListsLast(s) && TickStep(s, time, t) && Listed(s, sid) && sid in t.store.sessions
    ensures Listed(t, sid)
  {
    var b := s.past.born[sid];
    assert s.store.sessions[sid].expiresAt <= s.store.apps[b.shared].expires;
  }

  lemma BeginSilentLeaves(s: Sys, r: nat, shared: Id, client: string, ask: SilentAsk, way: Way, t: Sys)
    requires BeginSilentStep(s, r, shared, client, ask, way, t)
    ensures KeepsRest(s, t) && OnlyLoses(s, t, r) && KeepsAnswers(s, t, r) && KeepsPromises(s, t, r)
  {}

  lemma BeginSignInLeaves(
    s: Sys, r: nat, subject: string, client: string, loginMethod: string, proof: Proof, shared: Id, t: Sys)
    requires Loaded(s, r) && BeginSignInStep(s, r, subject, client, loginMethod, proof, shared, t)
    ensures KeepsRest(s, t) && OnlyLoses(s, t, r) && KeepsAnswers(s, t, r) && KeepsPromises(s, t, r)
  {}

  lemma JoinLeaves(s: Sys, r: nat, t: Sys)
    requires JoinStep(s, r, t)
    ensures KeepsRest(s, t) && OnlyLoses(s, t, r) && KeepsAnswers(s, t, r) && KeepsPromises(s, t, r)
  {}

  lemma MakeSharedLeaves(s: Sys, r: nat, id: Id, t: Sys)
    requires MakeSharedStep(s, r, id, t)
    ensures KeepsBindings(s, t) && KeepsLists(s, t) && OnlyLoses(s, t, r) && KeepsAnswers(s, t, r)
  {}

  lemma MakeSharedPromises(s: Sys, r: nat, id: Id, t: Sys)
    requires RightAt(s, r) && MakeSharedStep(s, r, id, t)
    ensures KeepsPromises(s, t, r)
  {}

  lemma CreateLeaves(s: Sys, r: nat, sid: Id, t: Sys)
    requires Ids(s) && CreateStep(s, r, sid, t)
    ensures KeepsLists(s, t) && KeepsEnded(s, t) && KeepsAnswers(s, t, r) && KeepsPromises(s, t, r)
  {}

  lemma RecordLeaves(s: Sys, r: nat, t: Sys)
    requires RecordStep(s, r, t)
    ensures KeepsBindings(s, t) && KeepsEnded(s, t) && OnlyLoses(s, t, r)
  {}

  lemma ListedStaysOrGoes(s: Sys, r: nat, t: Sys, sid: Id)
    requires Ids(s) && Lists(s) && At(s, r, Recording) && ListedStep(s, r, t) && Listed(s, sid)
    ensures Listed(t, sid) || Owes(t, r, sid)
  {}

  lemma ListedPromises(s: Sys, r: nat, t: Sys)
    requires Ids(s) && RightAt(s, r) && Lists(s) && At(s, r, Recording) && ListedStep(s, r, t)
    ensures KeepsPromises(s, t, r)
  {
    forall sid | Listed(s, sid) ensures Listed(t, sid) || Owes(t, r, sid) { ListedStaysOrGoes(s, r, t, sid); }
  }

  lemma UnlistedPromises(s: Sys, r: nat, t: Sys)
    requires Ids(s) && RightAt(s, r) && At(s, r, Recording) && UnlistedStep(s, r, t)
    ensures KeepsPromises(s, t, r)
  {}

  lemma CheckLeaves(s: Sys, r: nat, t: Sys)
    requires Ids(s) && RightAt(s, r) && CheckStep(s, r, t)
    ensures KeepsRest(s, t) && OnlyLoses(s, t, r) && KeepsPromises(s, t, r)
  {}

  lemma SaveCodeLeaves(s: Sys, r: nat, code: Id, t: Sys)
    requires RightAt(s, r) && SaveCodeStep(s, r, code, t)
    ensures KeepsRest(s, t) && KeepsPromises(s, t, r)
  {}

  lemma DropLeaves(s: Sys, r: nat, t: Sys)
    requires RightAt(s, r) && EndedGone(s) && DropStep(s, r, t)
    ensures KeepsBindings(s, t) && KeepsLists(s, t) && OnlyLoses(s, t, r) && KeepsAnswers(s, t, r)
    ensures KeepsPromises(s, t, r)
  {}

  lemma TakeLeaves(s: Sys, r: nat, t: Sys)
    requires TakeStep(s, r, t)
    ensures KeepsRest(s, t) && OnlyLoses(s, t, r) && KeepsAnswers(s, t, r)
  {}

  lemma TakePromises(s: Sys, r: nat, t: Sys)
    requires RightAt(s, r) && Lists(s) && TakeStep(s, r, t)
    ensures KeepsPromises(s, t, r)
  {}

  lemma PickEndLeaves(s: Sys, r: nat, target: Id, t: Sys)
    requires PickEndStep(s, r, target, t)
    ensures KeepsRest(s, t) && OnlyLoses(s, t, r) && KeepsAnswers(s, t, r) && KeepsPromises(s, t, r)
  {}

  lemma EndGrantLeaves(s: Sys, r: nat, t: Sys)
    requires EndGrantStep(s, r, t)
    ensures KeepsRest(s, t) && OnlyLoses(s, t, r) && KeepsAnswers(s, t, r) && KeepsPromises(s, t, r)
  {}

  lemma EndSessionLeaves(s: Sys, r: nat, t: Sys)
    requires EndSessionStep(s, r, t)
    ensures KeepsRest(s, t) && OnlyLoses(s, t, r) && KeepsAnswers(s, t, r) && KeepsPromises(s, t, r)
  {}

  lemma EndOverLeaves(s: Sys, r: nat, t: Sys)
    requires Ids(s) && RightAt(s, r) && EndOverStep(s, r, t)
    ensures KeepsRest(s, t) && OnlyLoses(s, t, r) && KeepsAnswers(s, t, r) && KeepsPromises(s, t, r)
  {}

  lemma LogoutLeaves(s: Sys, r: nat, shared: Id, t: Sys)
    requires LogoutStep(s, r, shared, t)
    ensures KeepsRest(s, t) && OnlyLoses(s, t, r) && KeepsAnswers(s, t, r) && KeepsPromises(s, t, r)
  {}

  lemma SpendCodeLeaves(s: Sys, r: nat, code: Id, client: string, thumbprint: string, t: Sys)
    requires Ids(s) && SpendCodeStep(s, r, code, client, thumbprint, t)
    ensures KeepsRest(s, t) && KeepsAnswers(s, t, r) && KeepsPromises(s, t, r)
  {}

  lemma LoadForCodeLeaves(s: Sys, r: nat, t: Sys)
    requires LoadForCodeStep(s, r, t)
    ensures KeepsRest(s, t) && OnlyLoses(s, t, r) && KeepsAnswers(s, t, r)
  {}

  lemma LoadForCodePromises(s: Sys, r: nat, t: Sys)
    requires Loaded(s, r) && LoadForCodeStep(s, r, t)
    ensures KeepsPromises(s, t, r)
  {}

  lemma SaveGrantLeaves(s: Sys, r: nat, key: Id, asked: seq<Membership>, hint: string, baseline: seq<string>, t: Sys)
    requires SaveGrantStep(s, r, key, asked, hint, baseline, t)
    ensures KeepsRest(s, t) && OnlyLoses(s, t, r) && KeepsAnswers(s, t, r)
  {}

  lemma SaveGrantPromises(
    s: Sys, r: nat, key: Id, asked: seq<Membership>, hint: string, baseline: seq<string>, t: Sys)
    requires Loaded(s, r) && SaveGrantStep(s, r, key, asked, hint, baseline, t)
    ensures KeepsPromises(s, t, r)
  {}

  lemma SaveBindingLeaves(s: Sys, r: nat, t: Sys)
    requires Loaded(s, r) && SaveBindingStep(s, r, t)
    ensures KeepsLists(s, t) && KeepsEnded(s, t) && KeepsAnswers(s, t, r) && KeepsPromises(s, t, r)
  {}

  lemma PresentRefreshLeaves(s: Sys, r: nat, key: Id, client: string, thumbprint: string, t: Sys)
    requires PresentRefreshStep(s, r, key, client, thumbprint, t)
    ensures KeepsRest(s, t) && OnlyLoses(s, t, r) && KeepsAnswers(s, t, r) && KeepsPromises(s, t, r)
  {}

  lemma RenewLeaves(s: Sys, r: nat, asked: seq<Membership>, baseline: seq<string>, t: Sys)
    requires RenewStep(s, r, asked, baseline, t)
    ensures KeepsRest(s, t) && OnlyLoses(s, t, r) && KeepsAnswers(s, t, r)
  {}

  lemma RenewPromises(s: Sys, r: nat, asked: seq<Membership>, baseline: seq<string>, t: Sys)
    requires Loaded(s, r) && RenewStep(s, r, asked, baseline, t)
    ensures KeepsPromises(s, t, r)
  {}

  lemma PresentRevokeLeaves(s: Sys, r: nat, key: Id, client: string, thumbprint: string, t: Sys)
    requires Ids(s) && PresentRevokeStep(s, r, key, client, thumbprint, t)
    ensures KeepsRest(s, t) && OnlyLoses(s, t, r) && KeepsAnswers(s, t, r) && KeepsPromises(s, t, r)
  {}

  lemma LoadForRevokeLeaves(s: Sys, r: nat, t: Sys)
    requires LoadForRevokeStep(s, r, t)
    ensures KeepsRest(s, t) && OnlyLoses(s, t, r) && KeepsAnswers(s, t, r)
  {}

  lemma LoadForRevokePromises(s: Sys, r: nat, t: Sys)
    requires RightAt(s, r) && LoadForRevokeStep(s, r, t)
    ensures KeepsPromises(s, t, r)
  {}

  lemma RevokeSessionLeaves(s: Sys, r: nat, t: Sys)
    requires RevokeSessionStep(s, r, t)
    ensures KeepsRest(s, t) && OnlyLoses(s, t, r) && KeepsAnswers(s, t, r) && KeepsPromises(s, t, r)
  {}

  lemma RevokeGrantLeaves(s: Sys, r: nat, t: Sys)
    requires Loaded(s, r) && RevokeGrantStep(s, r, t)
    ensures KeepsRest(s, t) && OnlyLoses(s, t, r) && KeepsAnswers(s, t, r) && KeepsPromises(s, t, r)
  {}

  lemma RefuseLeaves(s: Sys, r: nat, t: Sys)
    requires Loaded(s, r) && RefuseStep(s, r, t)
    ensures KeepsRest(s, t) && OnlyLoses(s, t, r) && KeepsAnswers(s, t, r) && KeepsPromises(s, t, r)
  {}

  lemma FalterLeaves(s: Sys, r: nat, t: Sys)
    requires FalterStep(s, r, t)
    ensures KeepsRest(s, t) && OnlyLoses(s, t, r) && KeepsAnswers(s, t, r)
  {}

  lemma CrashLeaves(s: Sys, r: nat, t: Sys)
    requires CrashStep(s, r, t)
    ensures KeepsRest(s, t) && OnlyLoses(s, t, r) && KeepsAnswers(s, t, r)
  {}
}
