/** Where a sign-out does not reach: the two ways past the guarantee of
    SharedTheorems.SignOutReachesEveryAnsweredApp, each by a run that takes it. Exactly
    when the first is open says SharedTheorems.SignInsReachedExactly; and the second,
    ListsLastUnlessCutShort here. */
module SharedEscapes {
  import opened StoreModel
  import opened SharedWays
  import opened Memberships
  import opened SharedMachine
  import opened SharedInvariant
  import opened SharedEffects
  import opened SharedKept
  import opened SharedTheorems
  import opened SignInAge

  const CONFIG := Config(10, {})

  function Last(run: seq<Sys>): Sys
    requires run != []
  {
    run[|run| - 1]
  }

  lemma Extend(run: seq<Sys>, a: Action, t: Sys) returns (longer: seq<Sys>)
    requires Run(run, CONFIG) && Step(Last(run), a, t)
    ensures Run(longer, CONFIG) && Last(longer) == t
  {
    longer := run + [t];
    forall i: nat | i + 1 < |longer| ensures NextAt(longer, i) {
      if i + 1 < |run| { assert NextAt(run, i); } else { assert Next(Last(run), t); }
    }
  }

  /** A list outlives every live session in it after a recording exactly when the
      end it was given is no earlier than that of any other client's session there. */
  lemma ListsLastUnlessCutShort(s: Sys, r: nat, t: Sys)
    requires RightAt(s, r) && StoreOk(s) && Lists(s) && ListsLast(s) && Intact(s)
    requires RecordStep(s, r, t) && s.now < s.reqs[r].record.expiresAt
    ensures ListsLast(t) <==> !CutsShort(s, s.reqs[r].shared, s.reqs[r].client, s.reqs[r].record.expiresAt)
  {
    var q := s.reqs[r];
    if CutsShort(s, q.shared, q.client, q.record.expiresAt) {
      OutlivesItsList(s, r, t);
    } else {
      assert Intact(t);
      RecordListsLast(s, r, t);
    }
  }

  lemma OutlivesItsList(s: Sys, r: nat, t: Sys)
    requires Lists(s) && RecordStep(s, r, t) && s.now < s.reqs[r].record.expiresAt
    requires CutsShort(s, s.reqs[r].shared, s.reqs[r].client, s.reqs[r].record.expiresAt)
    ensures !ListsLast(t)
  {
    var q := s.reqs[r];
    var list := SharedApps(s.store, q.shared);
    var c :| c in list && c != q.client
             && list[c] in s.store.sessions && q.record.expiresAt < s.store.sessions[list[c]].expiresAt;
    assert ListOk(s.past, q.shared, list) && Listed(t, list[c]);
  }

  // Pieces of a run.

  /** A silent answer begins, and makes its session. */
  lemma SilentMade(run: seq<Sys>, r: nat, id: Id, client: string, ask: SilentAsk, way: Way, sid: Id)
    returns (longer: seq<Sys>)
    requires Run(run, CONFIG) && r !in Last(run).reqs && sid !in Last(run).past.used
    requires id in Last(run).store.shared && SignInAge.Answers(Last(run).store.shared[id].ways, ask, Last(run).now, way)
    ensures Run(longer, CONFIG)
    ensures var s := Last(run);
            var record := s.store.shared[id];
            var sess := NO_SESSION.(subject := record.subject, loginMethod := way.loginMethod, authTime := way.authTime,
                                    shared := id, expiresAt := way.ends);
            var basis := Reused(ask, record.ways, s.now);
            var q := Begin(Silent, Recording).(client := client, subject := record.subject, shared := id, way := way,
                                               basis := basis, record := record, sid := sid);
            Last(longer) == Goes(s, r, q, s.store.(sessions := s.store.sessions[sid := sess])).(
              past := s.past.(used := s.past.used + {sid},
                              born := s.past.born[sid := Birth(record.subject, id, client, way, basis)]))
  {
    var s := Last(run);
    var record := s.store.shared[id];
    var basis := Reused(ask, record.ways, s.now);
    var q := Begin(Silent, Creating).(client := client, subject := record.subject, shared := id, way := way,
                                      basis := basis, record := record);
    longer := Extend(run, BeginSilent(r, id, client, ask, way), Goes(s, r, q, s.store));
    var sess := NO_SESSION.(subject := record.subject, loginMethod := way.loginMethod, authTime := way.authTime,
                            shared := id, expiresAt := way.ends);
    var s1 := Goes(s, r, q, s.store);
    var s2 := Goes(s1, r, q.(pc := Recording, sid := sid), s.store.(sessions := s.store.sessions[sid := sess])).(
      past := s.past.(used := s.past.used + {sid},
                      born := s.past.born[sid := Birth(record.subject, id, client, way, basis)]));
    longer := Extend(longer, Create(r, sid), s2);
    assert s2.reqs == s.reqs[r := q.(pc := Recording, sid := sid)];
  }

  // It is listed, and nothing is to be ended: it goes on.
  function Recorded(s: Sys, r: nat): Sys
    requires r in s.reqs
  {
    var q := s.reqs[r];
    var list := SharedApps(s.store, q.shared)[q.client := q.sid];
    Goes(s, r, WithNext(q, {}).(pc := WithNext(q, {}).after),
         s.store.(apps := s.store.apps[q.shared := Timed(list, q.record.expiresAt)])).(
      past := s.past.(shortened := s.past.shortened || CutsShort(s, q.shared, q.client, q.record.expiresAt),
                      covered := s.past.covered + NowCovered(s, q, true),
                      missed := s.past.missed + NowMissed(s, q)))
  }

  lemma RecordedTo(run: seq<Sys>, r: nat) returns (longer: seq<Sys>)
    requires Run(run, CONFIG) && At(Last(run), r, Recording)
    requires var s, q := Last(run), Last(run).reqs[r];
             && (q.kind == SignIn || q.kind == Silent)
             && q.client !in SharedApps(s.store, q.shared) && s.now < q.record.expiresAt
    ensures Run(longer, CONFIG) && Last(longer) == Recorded(Last(run), r)
  {
    var s := Last(run);
    var q := s.reqs[r];
    var t := Recorded(s, r);
    var s1 := t.(reqs := s.reqs[r := t.reqs[r].(pc := Ending)]);
    longer := Extend(run, Record(r), s1);
    assert t.reqs == s1.reqs[r := t.reqs[r]];
    longer := Extend(longer, EndOver(r), t);
  }

  // Its code is saved, and it is answered.
  function Coded(s: Sys, r: nat, code: Id): Sys
    requires r in s.reqs
  {
    var q := s.reqs[r];
    Done(s, r, SaveAppCode(s.store, s.now, code, AppCode(q.sid, q.client, "", "", []), APP_CODE_TTL)).(
      past := s.past.(used := s.past.used + {code},
                      covered := if q.kind == Silent then s.past.covered + {q.sid} else s.past.covered))
  }

  lemma CodedTo(run: seq<Sys>, r: nat, code: Id) returns (longer: seq<Sys>)
    requires Run(run, CONFIG) && code !in Last(run).past.used
    requires At(Last(run), r, SavingCode)
             || (At(Last(run), r, Checking) && Last(run).reqs[r].shared in Last(run).store.shared)
    ensures Run(longer, CONFIG) && Last(longer) == Coded(Last(run), r, code)
  {
    var s := Last(run);
    longer := run;
    if s.reqs[r].pc == Checking {
      var s1 := Goes(s, r, s.reqs[r].(pc := SavingCode), s.store);
      longer := Extend(run, Check(r), s1);
      assert Remove(s1.reqs, r) == Remove(s.reqs, r);
    }
    longer := Extend(longer, SaveCode(r, code), Coded(s, r, code));
  }

  // A request with its session made is answered: what is stored then.
  function Answered(s: Sys, r: nat, code: Id): Sys
    requires r in s.reqs
  {
    Coded(Recorded(s, r), r, code).(reqs := Remove(s.reqs, r))
  }

  /** A session of a client new to its shared session is recorded, and answered. */
  lemma AnsweredTo(run: seq<Sys>, r: nat, code: Id) returns (longer: seq<Sys>)
    requires Run(run, CONFIG) && At(Last(run), r, Recording) && code !in Last(run).past.used
    requires var s, q := Last(run), Last(run).reqs[r];
             && (q.kind == SignIn || (q.kind == Silent && q.shared in s.store.shared))
             && q.client !in SharedApps(s.store, q.shared) && s.now < q.record.expiresAt
    ensures Run(longer, CONFIG) && Last(longer) == Answered(Last(run), r, code)
  {
    longer := RecordedTo(run, r);
    longer := CodedTo(longer, r, code);
    assert Remove(Recorded(Last(run), r).reqs, r) == Remove(Last(run).reqs, r);
  }

  function Dropped(s: Sys, id: Id): Sys {
    s.(store := s.store.(shared := Remove(s.store.shared, id)), past := s.past.(ends := s.past.ends + multiset{id}))
  }

  const OUT := Begin(SignOut, Dropping)

  lemma DroppedTo(run: seq<Sys>, r: nat, id: Id) returns (longer: seq<Sys>)
    requires Run(run, CONFIG) && r !in Last(run).reqs && id in Last(run).store.shared
    ensures Run(longer, CONFIG)
    ensures var t := Dropped(Last(run), id);
            Last(longer) == t.(reqs := t.reqs[r := OUT.(shared := id, pc := Taking)])
  {
    var s := Last(run);
    var s1 := Goes(s, r, OUT.(shared := id), s.store);
    longer := Extend(run, Logout(r, id), s1);
    var t := Dropped(s, id);
    var s2 := t.(reqs := t.reqs[r := OUT.(shared := id, pc := Taking)]);
    assert s2.reqs == s1.reqs[r := OUT.(shared := id, pc := Taking)];
    longer := Extend(longer, Drop(r), s2);
  }

  lemma TakenTo(run: seq<Sys>, r: nat, id: Id) returns (longer: seq<Sys>)
    requires Run(run, CONFIG) && r !in Last(run).reqs
    requires id in Last(run).store.shared && id !in Last(run).store.apps
    ensures Run(longer, CONFIG)
    ensures var t := Dropped(Last(run), id);
            Last(longer) == t.(reqs := t.reqs[r := OUT.(shared := id, pc := Ending)])
  {
    longer := DroppedTo(run, r, id);
    var s := Last(longer);
    var none: map<string, Id> := map[];
    assert none.Values == {} && Remove(s.store.apps, id) == s.store.apps;
    var t := Goes(s, r, OUT.(shared := id, pc := Ending), s.store);
    assert t.reqs == Last(run).reqs[r := OUT.(shared := id, pc := Ending)];
    longer := Extend(longer, Take(r), t);
  }

  /** A shared session is signed out, its list empty or gone. */
  lemma SignedOut(run: seq<Sys>, r: nat, id: Id) returns (longer: seq<Sys>)
    requires Run(run, CONFIG) && r !in Last(run).reqs
    requires id in Last(run).store.shared && id !in Last(run).store.apps
    ensures Run(longer, CONFIG) && Last(longer) == Dropped(Last(run), id)
  {
    longer := TakenTo(run, r, id);
    var t := Dropped(Last(run), id);
    assert t.reqs == Remove(Last(longer).reqs, r);
    longer := Extend(longer, EndOver(r), t);
  }

  // A first sign-in, its session made and not yet recorded.

  const ASK := Ask(false, false, false, false, None)
  const WAY := Way("card", 1, FIRST, FIRST + 10)
  const RECORD := Shared("anna", [WAY], FIRST + 10)

  function SigningIn(): Request {
    Begin(SignIn, MakingShared).(client := "app", subject := "anna", way := WAY, basis := Proved(ByCard(ASK), FIRST))
  }

  lemma JoinedTo() returns (run: seq<Sys>)
    ensures Run(run, CONFIG)
    ensures Last(run) == Sys(CONFIG, FIRST, EMPTY.(shared := map[1 := RECORD]),
                             map[0 := SigningIn().(pc := Creating, shared := 1, record := RECORD)],
                             Start(CONFIG).past.(signIns := {("anna", FIRST)}, used := {0, 1},
                                                 people := map[1 := "anna"]))
  {
    var s0 := Start(CONFIG);
    run := [s0];
    var s1 := s0.(reqs := map[0 := SigningIn()], past := s0.past.(signIns := {("anna", FIRST)}));
    run := Extend(run, BeginSignIn(0, "anna", "app", "card", ByCard(ASK), 0), s1);
    assert Kept(Shared("anna", [], 0), WAY) == RECORD;
    var s2 := s1.(reqs := map[0 := SigningIn().(pc := Creating, shared := 1, record := RECORD)],
                  store := s1.store.(shared := map[1 := RECORD]),
                  past := s1.past.(used := {0, 1}, people := map[1 := "anna"]));
    run := Extend(run, MakeShared(0, 1), s2);
  }

  lemma SignedInTo() returns (run: seq<Sys>)
    ensures Run(run, CONFIG) && Last(run).now == FIRST && Last(run).config == CONFIG
    ensures Last(run).reqs == map[0 := SigningIn().(pc := Recording, sid := 2, shared := 1, record := RECORD)]
    ensures Last(run).store.shared == map[1 := RECORD] && Last(run).store.sessions.Keys == {2}
    ensures Last(run).store.apps == map[] && Last(run).store.sessions[2].expiresAt == FIRST + 10
    ensures Last(run).past.used == {0, 1, 2} && Last(run).past.ends == multiset{} && Intact(Last(run))
    ensures Last(run).past.born == map[2 := Birth("anna", 1, "app", WAY, Proved(ByCard(ASK), FIRST))]
  {
    run := JoinedTo();
    var s2 := Last(run);
    var sess := NO_SESSION.(subject := "anna", loginMethod := "card", authTime := 1, shared := 1,
                            expiresAt := FIRST + 10);
    var s3 := s2.(reqs := map[0 := SigningIn().(pc := Recording, sid := 2, shared := 1, record := RECORD)],
                  store := s2.store.(sessions := map[2 := sess]),
                  past := s2.past.(used := {0, 1, 2},
                                   born := map[2 := Birth("anna", 1, "app", WAY, Proved(ByCard(ASK), FIRST))]));
    run := Extend(run, Create(0, 2), s3);
  }

  /** A sign-in whose shared session is ended between the creation of its session and
      its recording goes on all the same, and its session is recorded where no
      sign-out will look. No failure, no list cut short, nothing in flight; and the
      session outlives the sign-out. */
  lemma SignInEscapes() returns (run: seq<Sys>)
    ensures Run(run, CONFIG)
    ensures Last(run).reqs == map[] && Intact(Last(run))
    ensures UnderEnded(Last(run), 2) && 2 in Last(run).store.sessions && 2 in Last(run).past.missed
  {
    run := SignedInTo();
    run := SignedOut(run, 1, 1);
    assert Last(run).past.ends == multiset{1};
    run := AnsweredTo(run, 0, 3);
  }

  // The list of a shared session is given the end the record had when a silent
  // answer read it, though a sign-in has moved that end meanwhile.

  const LATER := Way("phone", 0, FIRST + 5, FIRST + 15)
  const LONGER := Shared("anna", [WAY, LATER], FIRST + 15)
  const PHONE := AtAProvider(ASK, 0, 0)

  function Again(): Request {
    Begin(SignIn, Joining).(client := "second", subject := "anna", way := LATER, basis := Proved(PHONE, FIRST + 5),
                            shared := 1, record := LONGER)
  }

  /** Time goes on, and the person begins to sign in again. */
  lemma BegunAgain(run: seq<Sys>) returns (longer: seq<Sys>)
    requires Run(run, CONFIG) && Last(run).now == FIRST && Last(run).config == CONFIG
    requires Last(run).store.shared == map[1 := RECORD] && 2 !in Last(run).reqs
    ensures Run(longer, CONFIG)
    ensures var s := Last(run);
            Last(longer) == s.(now := FIRST + 5, store := Age(s.store, FIRST + 5), reqs := s.reqs[2 := Again()],
                               past := s.past.(signIns := s.past.signIns + {("anna", FIRST + 5)}))
  {
    var s := Last(run);
    var s1 := s.(now := FIRST + 5, store := Age(s.store, FIRST + 5));
    longer := Extend(run, Tick(FIRST + 5), s1);
    assert s1.store.shared == map[1 := RECORD];
    assert Without([WAY], "phone") == [WAY] && LatestEnd(FIRST + 10, [WAY, LATER]) == FIRST + 15;
    assert Kept(RECORD, LATER) == LONGER;
    var s2 := Goes(s1, 2, Again(), s1.store).(past := s1.past.(signIns := s1.past.signIns + {("anna", FIRST + 5)}));
    longer := Extend(longer, BeginSignIn(2, "anna", "second", "phone", PHONE, 1), s2);
  }

  /** And joins the shared session, which gains the way. */
  lemma JoinedAgain(run: seq<Sys>) returns (longer: seq<Sys>)
    requires Run(run, CONFIG) && Last(run).now == FIRST && Last(run).config == CONFIG
    requires Last(run).store.shared == map[1 := RECORD] && 2 !in Last(run).reqs
    ensures Run(longer, CONFIG)
    ensures var s := Last(run);
            Last(longer) == s.(now := FIRST + 5, reqs := s.reqs[2 := Again().(pc := Creating)],
                               store := Age(s.store, FIRST + 5).(shared := map[1 := LONGER]),
                               past := s.past.(signIns := s.past.signIns + {("anna", FIRST + 5)}))
  {
    longer := BegunAgain(run);
    var s := Last(longer);
    assert s.store.shared == map[1 := RECORD] && s.store.shared[1 := LONGER] == map[1 := LONGER];
    var t := Goes(s, 2, Again().(pc := Creating), s.store.(shared := map[1 := LONGER]));
    assert t.reqs == Last(run).reqs[2 := Again().(pc := Creating)];
    longer := Extend(longer, Join(2), t);
  }

  /** And is signed in again, by another way. */
  lemma SignedInAgain(run: seq<Sys>) returns (longer: seq<Sys>)
    requires Run(run, CONFIG) && Last(run).now == FIRST && Last(run).config == CONFIG
    requires Last(run).store.shared == map[1 := RECORD] && 2 !in Last(run).reqs && 5 !in Last(run).past.used
    ensures Run(longer, CONFIG) && Last(longer).now == FIRST + 5 && Last(longer).config == CONFIG
    ensures var s, t := Last(run), Last(longer);
            && t.reqs == s.reqs[2 := Again().(pc := Recording, sid := 5)]
            && t.store.shared == map[1 := LONGER] && t.store.apps == Age(s.store, FIRST + 5).apps
            && 5 in t.store.sessions && t.store.sessions.Keys == Age(s.store, FIRST + 5).sessions.Keys + {5}
            && t.past.used == s.past.used + {5} && t.past.covered == s.past.covered && t.past.ends == s.past.ends
            && t.past.faulty == s.past.faulty && t.past.shortened == s.past.shortened
            && t.past.born == s.past.born[5 := Birth("anna", 1, "second", LATER, Proved(PHONE, FIRST + 5))]
  {
    longer := JoinedAgain(run);
    var s := Last(longer);
    var sess := NO_SESSION.(subject := "anna", loginMethod := "phone", shared := 1, expiresAt := FIRST + 15);
    var t := Goes(s, 2, Again().(pc := Recording, sid := 5), s.store.(sessions := s.store.sessions[5 := sess])).(
      past := s.past.(used := s.past.used + {5},
                      born := s.past.born[5 := Birth("anna", 1, "second", LATER, Proved(PHONE, FIRST + 5))]));
    assert t.reqs == Last(run).reqs[2 := Again().(pc := Recording, sid := 5)];
    longer := Extend(longer, Create(2, 5), t);
  }

  // Whatever way of this method fits.
  function By(loginMethod: string): SilentAsk {
    SilentAsk(true, ASK, [loginMethod], [], false, false, None)
  }

  lemma LatestAnswers(ways: seq<Way>, now: Time)
    requires ways != [] && now < ways[|ways| - 1].ends
    ensures SignInAge.Answers(ways, By(ways[|ways| - 1].loginMethod), now, ways[|ways| - 1])
  {
    var i := |ways| - 1;
    assert SignInAge.Fits(ways[i], By(ways[i].loginMethod), now);
  }

  // A silent answer for "slow" that has read the first record, still to be recorded.
  predicate Slow(s: Sys) {
    && s.config == CONFIG && s.past.ends == multiset{} && !s.past.faulty
    && 1 in s.reqs && s.reqs[1].kind == Silent && s.reqs[1].pc == Recording && s.reqs[1].shared == 1
    && s.reqs[1].client == "slow" && s.reqs[1].record == RECORD && s.reqs[1].sid == 4
    && s.store.apps.Keys == {1}
  }

  // Where that run has come to: who is in flight, the record, its list and the list's
  // end, and the values drawn.
  ghost predicate Reaches(
    run: seq<Sys>, now: Time, inFlight: set<nat>, record: Shared, list: map<string, Id>, until: Time, used: set<Id>)
  {
    && Run(run, CONFIG) && Last(run).now == now && Slow(Last(run)) && Last(run).reqs.Keys == inFlight
    && Last(run).store.shared == map[1 := record] && Last(run).past.used == used
    && Last(run).store.apps == map[1 := Timed(list, until)]
  }

  lemma SlowBegins() returns (run: seq<Sys>)
    ensures Reaches(run, FIRST, {1}, RECORD, map["app" := 2], FIRST + 10, {0, 1, 2, 3, 4})
  {
    run := SignedInTo();
    run := AnsweredTo(run, 0, 3);
    assert Last(run).reqs == map[];
    LatestAnswers([WAY], FIRST);
    run := SilentMade(run, 1, 1, "slow", By("card"), WAY, 4);
  }

  lemma SecondBegins() returns (run: seq<Sys>)
    ensures Reaches(run, FIRST + 5, {1, 2}, LONGER, map["app" := 2], FIRST + 10, {0, 1, 2, 3, 4, 5})
    ensures 2 in Last(run).reqs && Last(run).reqs[2] == Again().(pc := Recording, sid := 5)
  {
    run := SlowBegins();
    run := SignedInAgain(run);
  }

  lemma SecondAnswered() returns (run: seq<Sys>)
    ensures Reaches(run, FIRST + 5, {1}, LONGER, map["app" := 2, "second" := 5], FIRST + 15, {0, 1, 2, 3, 4, 5, 6})
  {
    run := SecondBegins();
    run := AnsweredTo(run, 2, 6);
  }

  // A third, answered silently, and answered for.
  predicate Third(s: Sys) {
    && 7 in s.store.sessions && s.store.sessions[7].expiresAt == FIRST + 15
    && 7 in s.past.born && s.past.born[7].shared == 1
  }

  lemma ThirdBegins() returns (run: seq<Sys>)
    ensures Reaches(run, FIRST + 5, {1, 3}, LONGER, map["app" := 2, "second" := 5], FIRST + 15,
                    {0, 1, 2, 3, 4, 5, 6, 7})
    ensures Third(Last(run)) && 3 in Last(run).reqs
    ensures var q := Last(run).reqs[3];
            q.kind == Silent && q.pc == Recording && q.shared == 1 && q.client == "third" && q.sid == 7
            && q.record == LONGER
  {
    run := SecondAnswered();
    LatestAnswers([WAY, LATER], FIRST + 5);
    run := SilentMade(run, 3, 1, "third", By("phone"), LATER, 7);
  }

  lemma ThirdAnswered() returns (run: seq<Sys>)
    ensures Reaches(run, FIRST + 5, {1}, LONGER, map["app" := 2, "second" := 5, "third" := 7], FIRST + 15,
                    {0, 1, 2, 3, 4, 5, 6, 7, 8})
    ensures Third(Last(run)) && 7 in Last(run).past.covered
  {
    run := ThirdBegins();
    run := AnsweredTo(run, 3, 8);
  }

  /** A silent answer escapes a sign-out: its list was cut short by a record read
      before a later sign-in, and was gone when the sign-out came to take it. */
  lemma AnswerEscapes() returns (run: seq<Sys>)
    ensures Run(run, CONFIG)
    ensures Last(run).reqs == map[] && !Last(run).past.faulty
    ensures 7 in Last(run).past.covered && UnderEnded(Last(run), 7) && 7 in Last(run).store.sessions
  {
    run := ThirdAnswered();
    run := AnsweredTo(run, 1, 9);
    var s := Last(run);
    assert s.store.apps[1].expires == FIRST + 10 && s.reqs == map[];
    run := Extend(run, Tick(FIRST + 12), s.(now := FIRST + 12, store := Age(s.store, FIRST + 12)));
    run := SignedOut(run, 4, 1);
    assert Last(run).past.ends == multiset{1};
  }
}
