/** What a revocation ends (routes/refresh.go), over every run: who presents a refresh
    token with its session's key ends that session, the grant and the shared session it
    came from, and by that every app answered; and nothing else ends anything. */
module SharedRevocations {
  import opened StoreModel
  import opened SharedMachine
  import opened SharedInvariant
  import opened SharedEffects
  import opened SharedKept
  import opened SharedTheorems
  import SharedHandlers

  // What a refresh token presented is of.
  datatype Case = Case(sid: Id, key: Id, shared: Id)

  /** All it is to end is gone; a shared session of 0 is none. */
  predicate Ended(s: Sys, c: Case) {
    Gone(s, c.sid) && KeyGone(s, c.key) && (c.shared != 0 ==> SharedGone(s, c.shared))
  }

  /** The request is on its way to that. */
  predicate Revokes(s: Sys, r: nat, c: Case) {
    && r in s.reqs && s.reqs[r].kind == SignOut && s.reqs[r].after == Over && s.reqs[r].shared == c.shared
    && c.sid in s.past.born && c.key in s.past.used && (c.shared != 0 ==> c.shared in s.past.people)
    && (s.reqs[r].pc == RevokingSession || s.reqs[r].pc == RevokingGrant ==> s.reqs[r].key == c.key)
    && (s.reqs[r].pc == RevokingSession ==> s.reqs[r].sid == c.sid)
    && (s.reqs[r].pc == RevokingGrant ==> Gone(s, c.sid))
    && (s.reqs[r].pc == Dropping ==> Gone(s, c.sid) && KeyGone(s, c.key) && c.shared != 0)
    && s.reqs[r].pc in {RevokingSession, RevokingGrant, Dropping}
  }

  /** It is yet to load the session. */
  predicate Loads(s: Sys, r: nat, c: Case, thumbprint: string) {
    && At(s, r, Revoking) && s.reqs[r].kind == SignOut && s.reqs[r].after == Over && s.reqs[r].shared == 0
    && s.reqs[r].sid == c.sid && s.reqs[r].key == c.key && s.reqs[r].thumbprint == thumbprint
    && c.sid in s.past.born && c.key in s.past.used
  }

  lemma EndedStays(s: Sys, a: Action, t: Sys, c: Case)
    requires Sound(s) && Step(s, a, t) && Ended(s, c)
    ensures Ended(t, c)
  {
    RightHolds(s, a, t);
    KeyStaysGone(s, a, t, c.key);
    if c.shared != 0 { SharedStaysGone(s, a, t, c.shared); }
  }

  lemma RevokesStays(s: Sys, a: Action, t: Sys, r: nat, c: Case)
    requires Sound(s) && Step(s, a, t) && Revokes(s, r, c) && (a.Tick? || a.r != r)
    ensures Revokes(t, r, c)
  {
    RightHolds(s, a, t);
    SharedHandlers.OthersSpare(s, a, t, r);
    if KeyGone(s, c.key) { KeyStaysGone(s, a, t, c.key); }
  }

  lemma NotWhileRevoking(s: Sys, a: Action, t: Sys)
    requires Begins(a) || SignsIn(a) || EndsApps(a) || OfCodes(a)
    requires !a.Tick? && a.r in s.reqs && s.reqs[a.r].pc in {Revoking, RevokingSession, RevokingGrant, Dropping}
    ensures !Step(s, a, t)
  {}

  lemma RevokesNext(s: Sys, a: Action, t: Sys, r: nat, c: Case)
    requires Revokes(s, r, c) && Step(s, a, t) && !a.Tick? && a.r == r && !t.past.faulty
    ensures Revokes(t, r, c) || Ended(t, c)
  {
    if Begins(a) || SignsIn(a) || EndsApps(a) || OfCodes(a) { NotWhileRevoking(s, a, t); }
  }

  lemma RevokesOrEnded(s: Sys, a: Action, t: Sys, r: nat, c: Case)
    requires Sound(s) && Step(s, a, t) && (Revokes(s, r, c) || Ended(s, c)) && !t.past.faulty
    ensures Revokes(t, r, c) || Ended(t, c)
  {
    if Ended(s, c) {
      EndedStays(s, a, t, c);
    } else if a.Tick? || a.r != r {
      RevokesStays(s, a, t, r, c);
    } else {
      RevokesNext(s, a, t, r, c);
    }
  }

  lemma LoadsStays(s: Sys, a: Action, t: Sys, r: nat, c: Case, thumbprint: string)
    requires Sound(s) && Step(s, a, t) && Loads(s, r, c, thumbprint) && (a.Tick? || a.r != r)
    ensures Loads(t, r, c, thumbprint)
  {
    RightHolds(s, a, t);
    SharedHandlers.OthersSpare(s, a, t, r);
  }

  lemma LoadsNext(s: Sys, a: Action, t: Sys, r: nat)
    requires At(s, r, Revoking) && Step(s, a, t) && !a.Tick? && a.r == r && !t.past.faulty
    ensures LoadForRevokeStep(s, r, t)
  {
    if Begins(a) || SignsIn(a) || EndsApps(a) || OfCodes(a) { NotWhileRevoking(s, a, t); }
  }

  // Its one exchange bound the session to the key.
  predicate Proves(s: Sys, sid: Id, thumbprint: string) {
    sid in s.past.bound && s.past.bound[sid].thumbprint == thumbprint
  }

  // What a load in s, leading to t, is to have brought about.
  predicate Decided(s: Sys, t: Sys, r: nat, c: Case, thumbprint: string, now: Sys) {
    if c.sid !in s.store.sessions then Revokes(now, r, c.(shared := 0)) || Ended(now, c.(shared := 0))
    else if Proves(s, c.sid, thumbprint)
    then && c.sid in s.past.born && s.past.born[c.sid].shared != 0
         && var all := c.(shared := s.past.born[c.sid].shared);
         && (Revokes(now, r, all) || Ended(now, all))
    else t == s.(reqs := Remove(s.reqs, r))
  }

  lemma ProvedByItsKey(s: Sys, sid: Id, thumbprint: string)
    requires Sound(s) && sid in s.store.sessions
    ensures sid in s.past.born && s.store.sessions[sid].shared == s.past.born[sid].shared
    ensures s.past.born[sid].shared != 0 && s.past.born[sid].shared in s.past.people
    ensures Proves(s, sid, thumbprint) <==>
            s.store.sessions[sid].thumbprint != "" && s.store.sessions[sid].thumbprint == thumbprint
  {
    assert BindingStands(s, sid) && SessionOk(s.past, sid, s.store.sessions[sid]);
    assert BirthOk(s.config, s.past, s.past.born[sid]);
  }

  /** What the load decides. With the session's key, that session, the grant presented
      and the shared session it came from are to be ended. With another, nothing is, and
      the request is over. Of a session ended already, only the grant is left to end. */
  lemma LoadDecides(s: Sys, r: nat, t: Sys, c: Case, thumbprint: string)
    requires Loads(s, r, c, thumbprint) && LoadForRevokeStep(s, r, t)
    requires var sess := LoadSession(s.store, c.sid);
             sess.Some? ==> && c.sid in s.past.born && s.past.born[c.sid].shared == sess.value.shared
                            && sess.value.shared != 0 && sess.value.shared in s.past.people
                            && (Proves(s, c.sid, thumbprint) <==>
                                sess.value.thumbprint != "" && sess.value.thumbprint == thumbprint)
    ensures Decided(s, t, r, c, thumbprint, t)
  {}

  predicate LoadsAt(run: seq<Sys>, k: nat, r: nat) {
    k + 1 < |run| && LoadForRevokeStep(run[k], r, run[k + 1])
  }

  predicate Presents(run: seq<Sys>, i: nat, r: nat, key: Id, client: string, thumbprint: string) {
    && i + 1 < |run| && PresentRevokeStep(run[i], r, key, client, thumbprint, run[i + 1])
    && key in run[i].store.refresh && run[i].store.refresh[key].value.clientID == client
  }

  lemma PresentedLoads(run: seq<Sys>, config: Config, i: nat, r: nat, key: Id, client: string, thumbprint: string)
    requires Run(run, config) && Presents(run, i, r, key, client, thumbprint)
    ensures Loads(run[i + 1], r, Case(run[i].store.refresh[key].value.sessionID, key, 0), thumbprint)
  {
    RunIsRight(run, config, i);
    assert GrantOk(run[i].past, key, run[i].store.refresh[key].value);
  }

  predicate DecidedAt(run: seq<Sys>, k: nat, r: nat, c: Case, thumbprint: string, now: Sys) {
    LoadsAt(run, k, r) && Decided(run[k], run[k + 1], r, c, thumbprint, now)
  }

  predicate IsDecided(run: seq<Sys>, i: nat, r: nat, c: Case, thumbprint: string, j: nat)
    requires j < |run|
  {
    exists k :: i <= k < j && DecidedAt(run, k, r, c, thumbprint, run[j])
  }

  lemma DecidedNext(s: Sys, a: Action, t: Sys, r: nat, c: Case, thumbprint: string)
    requires Inv(s) && Step(s, a, t) && Loads(s, r, c, thumbprint) && !t.past.faulty
    ensures Loads(t, r, c, thumbprint) || (LoadForRevokeStep(s, r, t) && Decided(s, t, r, c, thumbprint, t))
  {
    if a.Tick? || a.r != r {
      LoadsStays(s, a, t, r, c, thumbprint);
    } else {
      LoadsNext(s, a, t, r);
      if c.sid in s.store.sessions { ProvedByItsKey(s, c.sid, thumbprint); }
      LoadDecides(s, r, t, c, thumbprint);
    }
  }

  lemma DecidedStays(
    s: Sys, t: Sys, r: nat, c: Case, thumbprint: string, now: Sys, a: Action, next: Sys)
    requires Sound(now) && Step(now, a, next) && !next.past.faulty && Decided(s, t, r, c, thumbprint, now)
    ensures Decided(s, t, r, c, thumbprint, next)
  {
    if c.sid !in s.store.sessions {
      RevokesOrEnded(now, a, next, r, c.(shared := 0));
    } else if Proves(s, c.sid, thumbprint) {
      RevokesOrEnded(now, a, next, r, c.(shared := s.past.born[c.sid].shared));
    }
  }

  lemma DecidedGoesOn(
    run: seq<Sys>, i: nat, r: nat, c: Case, thumbprint: string, j: nat, a: Action)
    requires j + 1 < |run| && Sound(run[j]) && Step(run[j], a, run[j + 1]) && !run[j + 1].past.faulty
    requires IsDecided(run, i, r, c, thumbprint, j)
    ensures IsDecided(run, i, r, c, thumbprint, j + 1)
  {
    var k :| i <= k < j && DecidedAt(run, k, r, c, thumbprint, run[j]);
    DecidedStays(run[k], run[k + 1], r, c, thumbprint, run[j], a, run[j + 1]);
    assert DecidedAt(run, k, r, c, thumbprint, run[j + 1]);
  }

  predicate LoadsOrDecided(run: seq<Sys>, i: nat, r: nat, c: Case, thumbprint: string, j: nat)
    requires j < |run|
  {
    Loads(run[j], r, c, thumbprint) || IsDecided(run, i, r, c, thumbprint, j)
  }

  lemma DecidedOneMore(run: seq<Sys>, i: nat, r: nat, c: Case, thumbprint: string, j: nat, a: Action)
    requires i <= j && j + 1 < |run| && Inv(run[j]) && Step(run[j], a, run[j + 1]) && !run[j + 1].past.faulty
    requires LoadsOrDecided(run, i, r, c, thumbprint, j)
    ensures LoadsOrDecided(run, i, r, c, thumbprint, j + 1)
  {
    if Loads(run[j], r, c, thumbprint) {
      DecidedNext(run[j], a, run[j + 1], r, c, thumbprint);
      assert Loads(run[j + 1], r, c, thumbprint) || DecidedAt(run, j, r, c, thumbprint, run[j + 1]);
    } else {
      DecidedGoesOn(run, i, r, c, thumbprint, j, a);
    }
  }

  /** Until it loads the session, nothing; and from then on what the load decided. */
  lemma {:induction false} DecidedSince(
    run: seq<Sys>, config: Config, i: nat, r: nat, c: Case, thumbprint: string, j: nat)
    requires Run(run, config) && i <= j < |run| && Loads(run[i], r, c, thumbprint) && !run[j].past.faulty
    ensures LoadsOrDecided(run, i, r, c, thumbprint, j)
    decreases j
  {
    if i < j {
      EndedStaysEnded(run, config, j - 1, j);
      DecidedSince(run, config, i, r, c, thumbprint, j - 1);
      RunIsRight(run, config, j - 1);
      assert NextAt(run, j - 1);
      var a :| Step(run[j - 1], a, run[j]);
      DecidedOneMore(run, i, r, c, thumbprint, j - 1, a);
    }
  }

  /** What a revocation that loaded session sid in s has brought about. With the session's
      key it ended it, the grant presented and the shared session it came from; with
      another it changed nothing; and of a session gone already it ended the grant. */
  predicate Brought(s: Sys, t: Sys, r: nat, sid: Id, key: Id, thumbprint: string, now: Sys) {
    if sid in s.store.sessions && !Proves(s, sid, thumbprint) then t == s.(reqs := Remove(s.reqs, r))
    else && sid !in now.store.sessions && key !in now.store.refresh
         && (sid in s.store.sessions ==> sid in s.past.born && SharedGone(now, s.past.born[sid].shared))
  }

  lemma DecidedIsBrought(s: Sys, t: Sys, r: nat, c: Case, thumbprint: string, now: Sys)
    requires Decided(s, t, r, c, thumbprint, now) && r !in now.reqs
    ensures Brought(s, t, r, c.sid, c.key, thumbprint, now)
  {}

  // It loaded the session at step k.
  predicate BroughtAt(run: seq<Sys>, k: nat, r: nat, sid: Id, key: Id, thumbprint: string, now: Sys) {
    LoadsAt(run, k, r) && Brought(run[k], run[k + 1], r, sid, key, thumbprint, now)
  }

  lemma BroughtInTheRun(run: seq<Sys>, i: nat, r: nat, c: Case, thumbprint: string, j: nat)
    requires j < |run| && r !in run[j].reqs && IsDecided(run, i, r, c, thumbprint, j)
    ensures exists k :: i <= k < j && BroughtAt(run, k, r, c.sid, c.key, thumbprint, run[j])
  {
    var k :| i <= k < j && DecidedAt(run, k, r, c, thumbprint, run[j]);
    DecidedIsBrought(run[k], run[k + 1], r, c, thumbprint, run[j]);
    assert BroughtAt(run, k, r, c.sid, c.key, thumbprint, run[j]);
  }

  /** Once a revocation presented by the token's client is over, and no store call failed,
      it loaded the session, once, and brought that about. */
  lemma RevocationEnds(
    run: seq<Sys>, config: Config, i: nat, r: nat, key: Id, client: string, thumbprint: string, j: nat)
    requires Run(run, config) && Presents(run, i, r, key, client, thumbprint)
    requires i < j < |run| && r !in run[j].reqs && !run[j].past.faulty
    ensures var sid := run[i].store.refresh[key].value.sessionID;
            exists k :: i < k < j && BroughtAt(run, k, r, sid, key, thumbprint, run[j])
  {
    var c := Case(run[i].store.refresh[key].value.sessionID, key, 0);
    PresentedLoads(run, config, i, r, key, client, thumbprint);
    DecidedSince(run, config, i + 1, r, c, thumbprint, j);
    BroughtInTheRun(run, i + 1, r, c, thumbprint, j);
  }

  /** A refresh token is revoked only by the client its session is of: presented by
      another, or where there is none, nothing is done; and presenting it alone ends
      nothing. */
  lemma OnlyItsClientRevokes(
    run: seq<Sys>, config: Config, i: nat, r: nat, key: Id, client: string, thumbprint: string)
    requires Run(run, config) && i + 1 < |run|
    requires PresentRevokeStep(run[i], r, key, client, thumbprint, run[i + 1])
    ensures run[i + 1].store == run[i].store && run[i + 1].past == run[i].past
    ensures if key in run[i].store.refresh
            then && key in run[i].past.owner && run[i].past.owner[key] in run[i].past.born
                 && (run[i + 1] == run[i] <==> client != run[i].past.born[run[i].past.owner[key]].client)
            else run[i + 1] == run[i]
  {
    RunIsRight(run, config, i);
    if key in run[i].store.refresh { assert GrantOk(run[i].past, key, run[i].store.refresh[key].value); }
    assert r in run[i + 1].reqs ==> run[i + 1] != run[i];
  }

  // A shared session that ran out in the run before j.
  predicate RanOut(run: seq<Sys>, id: Id, j: nat) {
    exists m :: 0 <= m < j < |run| && RunsOutAt(run, id, m)
  }

  predicate RunsOutAt(run: seq<Sys>, id: Id, m: nat) {
    m + 1 < |run| && id in run[m].store.shared && run[m].store.shared[id].expiresAt <= run[m + 1].now
  }

  // A shared session is made, ended or runs out; nothing else is done to it.
  predicate KeepsShared(s: Sys, t: Sys, id: Id) {
    t.past.people == s.past.people && (id in s.store.shared ==> id in t.store.shared)
  }

  lemma SigningKeepsShared(s: Sys, a: Action, t: Sys, id: Id)
    requires (Begins(a) && !a.Tick? && !a.MakeShared?) || SignsIn(a)
    requires Step(s, a, t)
    ensures KeepsShared(s, t, id)
  {}

  lemma EndingKeepsShared(s: Sys, a: Action, t: Sys, id: Id)
    requires a.Logout? || a.Take? || EndsApps(a)
    requires Step(s, a, t)
    ensures KeepsShared(s, t, id)
  {}

  lemma CodesKeepShared(s: Sys, a: Action, t: Sys, id: Id)
    requires OfCodes(a)
    requires Step(s, a, t)
    ensures KeepsShared(s, t, id)
  {}

  lemma TokensKeepShared(s: Sys, a: Action, t: Sys, id: Id)
    requires !Begins(a) && !SignsIn(a) && !EndsShared(a) && !EndsApps(a) && !OfCodes(a)
    requires Step(s, a, t)
    ensures KeepsShared(s, t, id)
  {}

  lemma OthersKeepShared(s: Sys, a: Action, t: Sys, id: Id)
    requires Step(s, a, t) && !a.Tick? && !a.Drop? && !a.MakeShared?
    ensures KeepsShared(s, t, id)
  {
    if Begins(a) || SignsIn(a) {
      SigningKeepsShared(s, a, t, id);
    } else if EndsShared(a) || EndsApps(a) {
      EndingKeepsShared(s, a, t, id);
    } else if OfCodes(a) {
      CodesKeepShared(s, a, t, id);
    } else {
      TokensKeepShared(s, a, t, id);
    }
  }

  lemma LeavesByAnEnd(s: Sys, a: Action, t: Sys, id: Id)
    requires Step(s, a, t) && id in s.store.shared && id !in t.store.shared
    ensures id in t.past.ends || s.store.shared[id].expiresAt <= t.now
  {
    if !a.Tick? && !a.Drop? && !a.MakeShared? { OthersKeepShared(s, a, t, id); }
  }

  lemma MadeIsStored(s: Sys, a: Action, t: Sys, id: Id)
    requires Step(s, a, t) && SharedGone(t, id)
    ensures id in s.past.people
  {
    if !a.Tick? && !a.Drop? && !a.MakeShared? { OthersKeepShared(s, a, t, id); }
  }

  /** A shared session gone was ended, or ran out. */
  lemma {:induction false} SharedEndsOrRunsOut(run: seq<Sys>, config: Config, j: nat, id: Id)
    requires Run(run, config) && j < |run| && SharedGone(run[j], id)
    ensures id in run[j].past.ends || RanOut(run, id, j)
    decreases j
  {
    if j > 0 {
      EndedStaysEnded(run, config, j - 1, j);
      assert NextAt(run, j - 1);
      var a :| Step(run[j - 1], a, run[j]);
      MadeIsStored(run[j - 1], a, run[j], id);
      if id in run[j - 1].store.shared {
        LeavesByAnEnd(run[j - 1], a, run[j], id);
        assert id in run[j].past.ends || RunsOutAt(run, id, j - 1);
      } else {
        SharedEndsOrRunsOut(run, config, j - 1, id);
      }
    }
  }

  // The sessions covered, of a shared session.
  predicate CoveredBy(s: Sys, app: Id, id: Id) {
    app in s.past.covered && app in s.past.born && s.past.born[app].shared == id
  }

  lemma GoneWithItsApps(run: seq<Sys>, config: Config, j: nat, id: Id)
    requires Run(run, config) && j < |run| && SharedGone(run[j], id) && run[j].reqs == map[] && Intact(run[j])
    ensures RanOut(run, id, j) || forall app :: CoveredBy(run[j], app, id) ==> app !in run[j].store.sessions
  {
    SharedEndsOrRunsOut(run, config, j, id);
    SignOutReachesEveryAnsweredApp(run, config, j, j);
  }

  /** One revocation signs the person out of every app. Proved by the session's key, and
      nothing in flight any more: every session its shared session answered silently,
      and every one of a sign-in a sign-out reaches, is gone with the one revoked, unless
      the shared session ran out of itself; provided no store call failed, and no list
      was cut short. */
  lemma RevocationReachesEveryAnsweredApp(
    run: seq<Sys>, config: Config, i: nat, r: nat, key: Id, client: string, thumbprint: string, j: nat)
    requires Run(run, config) && Presents(run, i, r, key, client, thumbprint)
    requires i < j < |run| && run[j].reqs == map[] && Intact(run[j])
    ensures var sid := run[i].store.refresh[key].value.sessionID;
            exists k :: i < k < j && LoadsAt(run, k, r) && sid in run[k].past.born
                        && (sid in run[k].store.sessions && Proves(run[k], sid, thumbprint) ==>
                              SignedOut(run, run[k].past.born[sid].shared, j))
  {
    var sid := run[i].store.refresh[key].value.sessionID;
    RevocationEnds(run, config, i, r, key, client, thumbprint, j);
    var k :| i < k < j && BroughtAt(run, k, r, sid, key, thumbprint, run[j]);
    OfABornSession(run, config, i, key, k);
    if sid in run[k].store.sessions && Proves(run[k], sid, thumbprint) {
      GoneWithItsApps(run, config, j, run[k].past.born[sid].shared);
    }
  }

  lemma OfABornSession(run: seq<Sys>, config: Config, i: nat, key: Id, k: nat)
    requires Run(run, config) && i <= k < |run| && key in run[i].store.refresh
    ensures run[i].store.refresh[key].value.sessionID in run[k].past.born
  {
    RunIsRight(run, config, i);
    assert GrantOk(run[i].past, key, run[i].store.refresh[key].value);
    EndedStaysEnded(run, config, i, k);
  }

  // The shared session is gone, and every app a sign-out of it reaches.
  predicate SignedOut(run: seq<Sys>, id: Id, j: nat)
    requires j < |run|
  {
    && SharedGone(run[j], id)
    && (RanOut(run, id, j) || forall app :: CoveredBy(run[j], app, id) ==> app !in run[j].store.sessions)
  }
}
