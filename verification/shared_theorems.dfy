/** A browser's shared session, over every run: any sign-ins, silent answers,
    exchanges, renewals and sign-outs, interleaved in any way. */
module SharedTheorems {
  import opened StoreModel
  import opened SharedWays
  import opened Memberships
  import opened SharedMachine
  import opened SharedInvariant
  import opened SharedEffects
  import opened SharedSteps
  import opened SharedReach
  import opened SharedKept
  import SignInAge

  lemma {:induction false} RunIsRight(run: seq<Sys>, config: Config, i: nat)
    requires Run(run, config) && i < |run|
    ensures Inv(run[i]) && run[i].config == config
  {
    if i == 0 {
      StartIsRight(config);
    } else {
      RunIsRight(run, config, i - 1);
      assert NextAt(run, i - 1);
      var a :| Step(run[i - 1], a, run[i]);
      InvKept(run[i - 1], a, run[i]);
    }
  }

  predicate Gone(s: Sys, sid: Id) {
    sid in s.past.born && sid !in s.store.sessions
  }

  // A shared session that was made, and has ended or run out.
  predicate SharedGone(s: Sys, id: Id) {
    id in s.past.people && id !in s.store.shared
  }

  lemma MadeUnderANewId(s: Sys, r: nat, drawn: Id, t: Sys, id: Id)
    requires Ids(s) && MakeSharedStep(s, r, drawn, t) && SharedGone(s, id)
    ensures id !in t.store.shared
  {}

  lemma MakersKeepIds(s: Sys, a: Action, t: Sys)
    requires Step(s, a, t) && (a.Create? || a.Record? || a.SaveBinding?)
    ensures KeepsEnded(s, t)
  {}

  lemma SharedIdsStay(s: Sys, a: Action, t: Sys)
    requires Sound(s) && Step(s, a, t) && !a.MakeShared? && !a.Drop?
    ensures KeepsEnded(s, t)
  {
    if a.Create? || a.Record? || a.SaveBinding? { MakersKeepIds(s, a, t); } else { LeftAlone(s, a, t); }
  }

  lemma SharedStaysGone(s: Sys, a: Action, t: Sys, id: Id)
    requires Sound(s) && Step(s, a, t) && SharedGone(s, id)
    ensures id !in t.store.shared
  {
    if a.MakeShared? {
      MadeUnderANewId(s, a.r, a.drawn, t, id);
    } else if !a.Drop? {
      SharedIdsStay(s, a, t);
    }
  }

  /** What has happened stays so; an app session or a shared session gone is never
      stored again. */
  lemma {:induction false} EndedStaysEnded(run: seq<Sys>, config: Config, i: nat, j: nat)
    requires Run(run, config) && i <= j < |run|
    ensures run[i].now <= run[j].now && Grows(run[i].past, run[j].past)
    ensures forall sid :: Gone(run[i], sid) ==> Gone(run[j], sid)
    ensures forall id :: SharedGone(run[i], id) ==> SharedGone(run[j], id)
    decreases j
  {
    if i < j {
      EndedStaysEnded(run, config, i, j - 1);
      RunIsRight(run, config, j - 1);
      assert NextAt(run, j - 1);
      var a :| Step(run[j - 1], a, run[j]);
      InvKept(run[j - 1], a, run[j]);
      RightHolds(run[j - 1], a, run[j]);
      forall id | SharedGone(run[j - 1], id) ensures id !in run[j].store.shared {
        SharedStaysGone(run[j - 1], a, run[j], id);
      }
    }
  }

  // No grant of the key, which was drawn before.
  predicate KeyGone(s: Sys, key: Id) {
    key in s.past.used && key !in s.store.refresh
  }

  lemma SigningDrawsNoKey(s: Sys, a: Action, t: Sys, key: Id)
    requires Begins(a) || SignsIn(a)
    requires Step(s, a, t) && key !in s.store.refresh
    ensures key !in t.store.refresh
  {}

  lemma EndingDrawsNoKey(s: Sys, a: Action, t: Sys, key: Id)
    requires EndsShared(a) || EndsApps(a)
    requires Step(s, a, t) && key !in s.store.refresh
    ensures key !in t.store.refresh
  {}

  lemma CodesDrawNoOldKey(s: Sys, a: Action, t: Sys, key: Id)
    requires OfCodes(a) && Step(s, a, t) && KeyGone(s, key)
    ensures key !in t.store.refresh
  {}

  lemma RefreshDrawsNoKey(s: Sys, a: Action, t: Sys, key: Id)
    requires a.PresentRefresh? || a.Renew? || a.Refuse? || a.Falter? || a.Crash?
    requires Step(s, a, t) && key !in s.store.refresh
    ensures key !in t.store.refresh
  {}

  lemma RevokingDrawsNoKey(s: Sys, a: Action, t: Sys, key: Id)
    requires a.PresentRevoke? || a.LoadForRevoke?
    requires Step(s, a, t) && key !in s.store.refresh
    ensures key !in t.store.refresh
  {}

  lemma RevokedDrawsNoKey(s: Sys, r: nat, t: Sys, key: Id)
    requires RevokeSessionStep(s, r, t) || RevokeGrantStep(s, r, t)
    requires key !in s.store.refresh
    ensures key !in t.store.refresh
  {}

  lemma KeyStaysGone(s: Sys, a: Action, t: Sys, key: Id)
    requires Step(s, a, t) && KeyGone(s, key)
    ensures key !in t.store.refresh
  {
    if Begins(a) || SignsIn(a) {
      SigningDrawsNoKey(s, a, t, key);
    } else if EndsShared(a) || EndsApps(a) {
      EndingDrawsNoKey(s, a, t, key);
    } else if OfCodes(a) {
      CodesDrawNoOldKey(s, a, t, key);
    } else if a.PresentRevoke? || a.LoadForRevoke? {
      RevokingDrawsNoKey(s, a, t, key);
    } else if a.RevokeSession? || a.RevokeGrant? {
      RevokedDrawsNoKey(s, a.r, t, key);
    } else {
      RefreshDrawsNoKey(s, a, t, key);
    }
  }

  lemma DrawnStaysDrawn(run: seq<Sys>, config: Config, i: nat, j: nat, key: Id)
    requires Run(run, config) && i <= j < |run| && key in run[i].past.used
    ensures key in run[j].past.used
  {
    EndedStaysEnded(run, config, i, j);
  }

  /** Nor is a grant under its key. */
  lemma {:induction false} KeysStayGone(run: seq<Sys>, config: Config, i: nat, j: nat, key: Id)
    requires Run(run, config) && i <= j < |run| && KeyGone(run[i], key)
    ensures KeyGone(run[j], key)
    decreases j
  {
    if i < j {
      KeysStayGone(run, config, i, j - 1, key);
      DrawnStaysDrawn(run, config, j - 1, j, key);
      assert NextAt(run, j - 1);
      var a :| Step(run[j - 1], a, run[j]);
      KeyStaysGone(run[j - 1], a, run[j], key);
    }
  }

  /** A shared session ended is never stored again, and is ended once. */
  lemma SharedEndsOnce(run: seq<Sys>, config: Config, i: nat, j: nat, id: Id)
    requires Run(run, config) && i <= j < |run| && id in run[i].past.ends
    ensures id !in run[j].store.shared && run[j].past.ends[id] == 1
  {
    EndedStaysEnded(run, config, i, j);
    RunIsRight(run, config, j);
    assert run[i].past.ends[id] <= run[j].past.ends[id];
  }

  // The shared session it was made under has been ended.
  predicate UnderEnded(s: Sys, sid: Id) {
    sid in s.past.born && s.past.born[sid].shared in s.past.ends
  }

  /** Sign-out reaches every app answered. However answers, replacements by the same
      client and ends interleave, once a shared session has been ended and nothing is
      in flight, no session it answered silently is stored, then or ever after, and
      none of a sign-in that was recorded before its list was taken; provided no store
      call failed, and no list was to end before one of its own. */
  lemma SignOutReachesEveryAnsweredApp(run: seq<Sys>, config: Config, i: nat, j: nat)
    requires Run(run, config) && i <= j < |run|
    requires run[i].reqs == map[] && !run[i].past.faulty && !run[i].past.shortened
    ensures forall sid :: sid in run[i].past.covered && UnderEnded(run[i], sid) ==> sid !in run[j].store.sessions
  {
    RunIsRight(run, config, i);
    EndedStaysEnded(run, config, i, j);
    var s := run[i];
    forall sid | sid in s.past.covered && UnderEnded(s, sid) ensures Gone(s, sid)
    {
      assert Reached(s, sid);
    }
  }

  // A session that lives is listed as it is recorded.
  lemma LivingIsListed(s: Sys, r: nat)
    requires Ids(s) && RightAt(s, r) && ToRecord(s, r) && Makes(s.reqs[r])
    requires s.reqs[r].sid in s.store.sessions && SessionOk(s.past, s.reqs[r].sid, s.store.sessions[s.reqs[r].sid])
    ensures s.now < s.reqs[r].record.expiresAt
  {}

  lemma RecordedTooLate(s: Sys, r: nat, t: Sys)
    requires RightAt(s, r) && At(s, r, Recording) && ListedStep(s, r, t) && !Known(s, s.reqs[r].sid)
    requires s.reqs[r].kind == SignIn && s.reqs[r].sid in s.store.sessions && !StillTaken(s, s.reqs[r].shared)
    ensures !Reached(t, s.reqs[r].sid) && s.reqs[r].sid in t.past.missed
  {
    var q := s.reqs[r];
    forall o ensures !Takes(t, o, q.shared) { assert o != r && Takes(t, o, q.shared) ==> Takes(s, o, q.shared); }
    forall o ensures !Owes(t, o, q.sid) { assert !Owes(s, o, q.sid); }
  }

  /** A sign-in's session is in reach of a sign-out, as it is recorded, exactly when its
      shared session has not ended, or whoever ended it has yet to take its list. */
  lemma RecordedInReach(s: Sys, r: nat, t: Sys)
    requires Inv(s) && RecordStep(s, r, t) && s.reqs[r].kind == SignIn && s.reqs[r].sid in s.store.sessions
    ensures var q := s.reqs[r];
            && (Reached(t, q.sid) <==> StillTaken(s, q.shared))
            && q.sid in if StillTaken(s, q.shared) then t.past.covered else t.past.missed
  {
    var q := s.reqs[r];
    assert RightAt(s, r) && ToRecord(s, r);
    LivingIsListed(s, r);
    if StillTaken(s, q.shared) { CoveredIsReached(s, r, t); } else { RecordedTooLate(s, r, t); }
  }

  lemma RecordedEarly(run: seq<Sys>, config: Config, i: nat, j: nat, sid: Id)
    requires Run(run, config) && i <= j < |run| && sid in run[i].past.covered
    requires run[j].reqs == map[] && Intact(run[j]) && UnderEnded(run[j], sid)
    ensures sid !in run[j].store.sessions
  {
    EndedStaysEnded(run, config, i, j);
    SignOutReachesEveryAnsweredApp(run, config, j, j);
  }

  lemma MissedStaysMissed(run: seq<Sys>, config: Config, i: nat, j: nat, sid: Id)
    requires Run(run, config) && i <= j < |run| && sid in run[i].past.missed
    ensures OutOfReach(run[j], sid)
  {
    EndedStaysEnded(run, config, i, j);
    RunIsRight(run, config, j);
  }

  lemma AsRecorded(run: seq<Sys>, config: Config, i: nat, r: nat)
    requires Run(run, config) && i + 1 < |run| && RecordStep(run[i], r, run[i + 1])
    requires run[i].reqs[r].kind == SignIn && run[i].reqs[r].sid in run[i].store.sessions
    ensures var q := run[i].reqs[r];
            && q.sid in (if StillTaken(run[i], q.shared) then run[i + 1].past.covered else run[i + 1].past.missed)
            && Makes(q)
  {
    RunIsRight(run, config, i);
    RecordedInReach(run[i], r, run[i + 1]);
    assert RightAt(run[i], r);
  }

  lemma BornAs(run: seq<Sys>, config: Config, i: nat, r: nat, j: nat)
    requires Run(run, config) && i <= j < |run| && r in run[i].reqs && Makes(run[i].reqs[r])
    ensures var q := run[i].reqs[r];
            q.sid in run[j].past.born && run[j].past.born[q.sid].shared == q.shared
            && run[j].past.born[q.sid].client == q.client
  {
    RunIsRight(run, config, i);
    EndedStaysEnded(run, config, i, j);
    assert RightAt(run[i], r);
  }

  /** So over every run. Recorded in reach, it is gone once the shared session was ended
      and nothing is in flight, unless something failed or a list was cut short; else
      no sign-out ever takes its list again, and whoever is to end it is a later
      sign-in, or answer, of the same client that was recorded in its place. */
  lemma SignInsReachedExactly(run: seq<Sys>, config: Config, i: nat, r: nat, j: nat)
    requires Run(run, config) && i + 1 <= j < |run| && RecordStep(run[i], r, run[i + 1])
    requires run[i].reqs[r].kind == SignIn && run[i].reqs[r].sid in run[i].store.sessions
    ensures var q, s := run[i].reqs[r], run[j];
            if StillTaken(run[i], q.shared)
            then s.reqs == map[] && Intact(s) && q.shared in s.past.ends ==> q.sid !in s.store.sessions
            else && (forall o :: !Takes(s, o, q.shared))
                 && (forall o :: Owes(s, o, q.sid) ==>
                                   Makes(s.reqs[o]) && s.reqs[o].shared == q.shared && s.reqs[o].client == q.client)
  {
    AsRecorded(run, config, i, r);
    BornAs(run, config, i, r, j);
    var q, s := run[i].reqs[r], run[j];
    if !StillTaken(run[i], q.shared) {
      MissedStaysMissed(run, config, i + 1, j, q.sid);
    } else if s.reqs == map[] && Intact(s) && q.shared in s.past.ends {
      RecordedEarly(run, config, i + 1, j, q.sid);
    }
  }

  /** One person per shared session: the record, every app session under it and every
      request still to make one are of the person it was made for, throughout. */
  lemma OnePersonPerShared(run: seq<Sys>, config: Config, i: nat, j: nat, id: Id)
    requires Run(run, config) && i <= j < |run| && id in run[i].past.people
    ensures var person := run[i].past.people[id];
            && (id in run[j].store.shared ==> run[j].store.shared[id].subject == person)
            && (forall sid :: sid in run[j].store.sessions && run[j].store.sessions[sid].shared == id ==>
                                run[j].store.sessions[sid].subject == person)
            && (forall r :: r in run[j].reqs && run[j].reqs[r].pc == Creating && run[j].reqs[r].shared == id ==>
                              run[j].reqs[r].subject == person)
            && run[j].past.ends[id] <= 1
  {
    EndedStaysEnded(run, config, i, j);
    RunIsRight(run, config, j);
    var s := run[j];
    forall sid | sid in s.store.sessions && s.store.sessions[sid].shared == id
      ensures s.store.sessions[sid].subject == run[i].past.people[id]
    {
      assert SessionOk(s.past, sid, s.store.sessions[sid]) && BirthOk(config, s.past, s.past.born[sid]);
    }
    forall r | r in s.reqs && s.reqs[r].pc == Creating && s.reqs[r].shared == id
      ensures s.reqs[r].subject == run[i].past.people[id]
    {
      assert RightAt(s, r);
    }
    assert id in s.past.ends ==> s.past.ends[id] == 1;
  }

  /** Nothing but a sign-in gives more time. A session ends when the way it rests on
      ends, one session lifetime after a sign-in the same person completed; no
      renewal, exchange or silent answer moves it, and it is not there past it. */
  lemma OnlyASignInGivesTime(run: seq<Sys>, config: Config, i: nat, j: nat, sid: Id)
    requires Run(run, config) && i <= j < |run| && sid in run[i].store.sessions && sid in run[j].store.sessions
    ensures sid in run[i].past.born
    ensures var way := run[i].past.born[sid].way;
            && (run[i].store.sessions[sid].subject, way.signedIn) in run[i].past.signIns
            && way.signedIn <= run[i].now
            && run[i].store.sessions[sid].expiresAt == way.signedIn + config.ttl
            && run[j].store.sessions[sid].expiresAt == run[i].store.sessions[sid].expiresAt
            && run[j].store.sessions[sid].authTime == way.authTime
  {
    EndedStaysEnded(run, config, i, j);
    RunIsRight(run, config, i);
    RunIsRight(run, config, j);
    var s := run[i];
    assert SessionOk(s.past, sid, s.store.sessions[sid]) && BirthOk(config, s.past, s.past.born[sid]);
    assert SessionOk(run[j].past, sid, run[j].store.sessions[sid]);
  }

  /** A silent answer rests on a way its shared session still has: a sign-in the same
      person completed, still within its lifetime, which the record outlasts. */
  lemma SilentAnswerRestsOnAWay(
    run: seq<Sys>, config: Config, i: nat, r: nat, shared: Id, client: string, ask: SignInAge.SilentAsk, way: Way,
    t: Sys)
    requires Run(run, config) && i < |run| && BeginSilentStep(run[i], r, shared, client, ask, way, t)
    ensures var person := run[i].store.shared[shared].subject;
            && (person, way.signedIn) in run[i].past.signIns
            && run[i].now < way.ends == way.signedIn + config.ttl <= run[i].store.shared[shared].expiresAt
  {
    RunIsRight(run, config, i);
  }

  /** And the session it makes ends with that way: it is one of the ways the record had
      when it was read, and no later sign-in of theirs fits the request. That asked for
      no sign-in made anew and no other account, was of a client that may be answered
      so, and the person had what the client needs. */
  lemma SilentSessionEndsWithItsWay(run: seq<Sys>, config: Config, i: nat, sid: Id)
    requires Run(run, config) && i < |run| && sid in run[i].store.sessions
    requires sid in run[i].past.born && run[i].past.born[sid].basis.Reused?
    ensures var b, sess := run[i].past.born[sid], run[i].store.sessions[sid];
            var Reused(request, ways, at) := b.basis;
            && b.way in ways && b.way.loginMethod in request.offered && at < b.way.ends
            && sess.loginMethod == b.way.loginMethod && sess.authTime == b.way.authTime
            && run[i].now < sess.expiresAt == b.way.ends == b.way.signedIn + config.ttl
            && (sess.subject, b.way.signedIn) in run[i].past.signIns
            && (forall w :: w in ways && w.signedIn > b.way.signedIn ==> !SignInAge.Fits(w, request, at))
            && request.singleSignOn && !request.ask.login && !request.ask.selectAccount
            && (request.named != [] ==> sess.loginMethod in request.named)
            && (request.wantsSerial ==> request.hasSerial)
            && (request.membership.Some? ==> request.membership.value.Some? && 0 < request.membership.value.value)
  {
    RunIsRight(run, config, i);
    var s := run[i];
    assert SessionOk(s.past, sid, s.store.sessions[sid]) && BirthOk(config, s.past, s.past.born[sid]);
  }

  /** A max_age asked for is met by the session made. Whatever it rests on, a sign-in at
      a provider or by card, or a shared session's way, its stored time is known, and
      when it was read was no older than that; a provider's clock has its leeway. And
      max_age or not, a sign-in that was to be made anew at a provider has a known
      time, no earlier than its flow began, with the same leeway. */
  lemma SessionsMeetMaxAge(run: seq<Sys>, config: Config, i: nat, sid: Id)
    requires Run(run, config) && i < |run| && sid in run[i].store.sessions
    ensures sid in run[i].past.born
    ensures var basis, authTime := run[i].past.born[sid].basis, run[i].store.sessions[sid].authTime;
            && var asked := SignInAge.MaxAgeOf(basis);
            && (asked.Some? ==>
                  && authTime != 0
                  && SignInAge.Unix(basis.at) - authTime <= asked.value + SignInAge.Leeway(basis))
            && (SignInAge.ForcedAtAProvider(basis) ==> authTime != 0 && basis.proof.started - 30 <= authTime)
  {
    RunIsRight(run, config, i);
    var s := run[i];
    assert SessionOk(s.past, sid, s.store.sessions[sid]) && BirthOk(config, s.past, s.past.born[sid]);
    SignInAge.MaxAgeIsMet(s.past.born[sid].basis, s.past.born[sid].way);
  }

  /** A session a sign-in made states the sign-in's own moment: the one the provider
      stated; else, by card or forced, when it was complete; else none. It ends one
      session lifetime after it was complete. */
  lemma SessionsKeepTheirMoment(run: seq<Sys>, config: Config, i: nat, sid: Id)
    requires Run(run, config) && i < |run| && sid in run[i].store.sessions
    requires sid in run[i].past.born && run[i].past.born[sid].basis.Proved?
    ensures var Proved(proof, at) := run[i].past.born[sid].basis;
            var sess := run[i].store.sessions[sid];
            && sess.authTime == (if proof.ByCard? || (proof.stated <= 0 && proof.ask.forcedLogin) then at / 1000
                                 else if 0 < proof.stated then proof.stated else 0)
            && sess.expiresAt == at + config.ttl && (sess.subject, at) in run[i].past.signIns
            && sess.loginMethod == run[i].past.born[sid].way.loginMethod
  {
    RunIsRight(run, config, i);
    var s := run[i];
    assert SessionOk(s.past, sid, s.store.sessions[sid]) && BirthOk(config, s.past, s.past.born[sid]);
    var b := s.past.born[sid];
    SignInAge.ProvedKeepsItsMoment(b.basis.proof, b.basis.at, b.way);
  }

  // The codes of a session, and the requests that hold its one exchange.

  function Codes(s: Sys, sid: Id): set<Id> {
    set k | k in s.store.codes && s.store.codes[k].value.sessionID == sid
  }

  function Holders(s: Sys, sid: Id): set<nat> {
    set r | r in s.reqs && s.reqs[r].sid == sid && Holder(s.reqs[r])
  }

  /** A session has one code exchange: its codes and the requests that may yet make
      or spend one are at most one, and none once it is bound. */
  lemma OneExchange(run: seq<Sys>, config: Config, i: nat, sid: Id)
    requires Run(run, config) && i < |run|
    ensures |Codes(run[i], sid)| + |Holders(run[i], sid)| <= (if sid in run[i].past.bound then 0 else 1)
  {
    RunIsRight(run, config, i);
    var s := run[i];
    assert forall k :: k in Codes(s, sid) ==> Holds(s, Code(k), sid);
    assert forall r :: r in Holders(s, sid) ==> Holds(s, Held(r), sid);
    AtMostOne(Codes(s, sid));
    AtMostOne(Holders(s, sid));
    if k :| k in Codes(s, sid) {
    } else if r :| r in Holders(s, sid) {
    }
  }

  /** Every token of a session, over any renewals, is for the client and the key bound
      at its one exchange. Once a tenant was chosen, each carries that tenant and the
      scopes of exactly one membership the register then answered there. */
  lemma TokensOfASession(run: seq<Sys>, config: Config, i: nat, j: nat, first: Token, later: Token)
    requires Run(run, config) && i <= j < |run| && first.sid == later.sid
    requires first in run[i].past.tokens && later in run[j].past.tokens
    ensures later.client == first.client && later.thumbprint == first.thumbprint
    ensures first.sid in run[i].past.bound
    ensures var tenant := run[i].past.bound[first.sid].tenant;
            tenant != "" ==>
              && later.outcome.tenant == first.outcome.tenant == tenant && later.outcome.choices == []
              && exists m :: m in later.asked && m.tenantID == tenant && m.scopes == later.outcome.scopes
    ensures first.sid in run[j].store.sessions ==>
              var sess := run[j].store.sessions[first.sid];
              sess.clientID == first.client && sess.thumbprint == first.thumbprint
  {
    EndedStaysEnded(run, config, i, j);
    RunIsRight(run, config, i);
    RunIsRight(run, config, j);
    assert TokenOk(config, run[i].past, first) && TokenOk(config, run[j].past, later);
    if first.sid in run[j].store.sessions { assert BindingStands(run[j], first.sid); }
  }
}
