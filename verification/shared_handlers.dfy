/** Signing in, answering silently and signing out as the code runs them
    (routes/shared.go, routes/authorize.go saveSignedIn): one store call after another,
    with any steps of other requests in between. What they make is a run of the
    shared-session machine. */
module SharedHandlers {
  import opened StoreModel
  import opened SharedWays
  import opened Memberships
  import opened SharedMachine
  import opened SharedInvariant
  import opened SharedEffects
  import opened SharedReach
  import opened SharedTheorems
  import opened Interleaving
  import opened SignInAge

  lemma BeginningSpares(s: Sys, a: Action, t: Sys, r: nat)
    requires Begins(a) || SignsIn(a)
    requires Step(s, a, t) && (a.Tick? || a.r != r)
    ensures Spares(s.reqs, t.reqs, r)
  {}

  lemma EndingSpares(s: Sys, a: Action, t: Sys, r: nat)
    requires EndsShared(a) || EndsApps(a)
    requires Step(s, a, t) && (a.Tick? || a.r != r)
    ensures Spares(s.reqs, t.reqs, r)
  {}

  lemma TokensSpare(s: Sys, a: Action, t: Sys, r: nat)
    requires !Begins(a) && !SignsIn(a) && !EndsShared(a) && !EndsApps(a)
    requires Step(s, a, t) && a.r != r
    ensures Spares(s.reqs, t.reqs, r)
  {}

  // Only an action's own request is moved.
  lemma OthersSpare(s: Sys, a: Action, t: Sys, r: nat)
    requires Step(s, a, t) && (a.Tick? || a.r != r)
    ensures Spares(s.reqs, t.reqs, r)
  {
    if Begins(a) || SignsIn(a) {
      BeginningSpares(s, a, t, r);
    } else if EndsShared(a) || EndsApps(a) {
      EndingSpares(s, a, t, r);
    } else {
      TokensSpare(s, a, t, r);
    }
  }

  type Schedule = Interleaving.Schedule<Action, Sys>

  // The request is for the same client, person and session, by the same way.
  predicate Alike(p: Request, q: Request) {
    && p.kind == q.kind && p.sid == q.sid && p.subject == q.subject && p.client == q.client
    && p.way == q.way && p.basis == q.basis
  }

  /** Some run of the machine goes through s, and then through t. */
  ghost predicate Follows(config: Config, s: Sys, t: Sys) {
    exists run: seq<Sys>, i: nat, j: nat :: Run(run, config) && i <= j < |run| && run[i] == s && run[j] == t
  }

  lemma StepFollows(config: Config, from: Sys, s: Sys, a: Action, t: Sys)
    requires Follows(config, from, s) && Step(s, a, t)
    ensures Follows(config, from, t)
  {
    var run, i: nat, j: nat :| Run(run, config) && i <= j < |run| && run[i] == from && run[j] == s;
    var longer := run[..j + 1] + [t];
    forall k: nat | k + 1 < |longer| ensures NextAt(longer, k) {
      if k < j { assert NextAt(run, k); } else { assert Next(s, t); }
    }
    assert longer[i] == from && longer[j + 1] == t;
  }

  lemma FollowsOn(config: Config, s: Sys, t: Sys, u: Sys)
    requires Follows(config, s, t) && Follows(config, t, u)
    ensures Follows(config, s, u)
  {
    var run, i: nat, j: nat :| Run(run, config) && i <= j < |run| && run[i] == s && run[j] == t;
    var other, k: nat, l: nat :| Run(other, config) && k <= l < |other| && other[k] == t && other[l] == u;
    var joined := run[..j + 1] + other[k + 1..];
    forall m: nat | m + 1 < |joined| ensures NextAt(joined, m) {
      if m < j {
        assert NextAt(run, m);
      } else {
        assert NextAt(other, m - j + k) && joined[m] == other[m - j + k] && joined[m + 1] == other[m - j + k + 1];
      }
    }
    assert joined[i] == s && joined[j + l - k] == u;
  }

  lemma Here(config: Config, s: Sys, t: Sys)
    requires Follows(config, s, t)
    ensures Follows(config, t, t)
  {
    var run, i: nat, j: nat :| Run(run, config) && i <= j < |run| && run[i] == s && run[j] == t;
  }

  // What the request's client had in the list before it.
  function Before(s: Sys, q: Request): set<Id> {
    var list := SharedApps(s.store, q.shared);
    if q.client !in list || list[q.client] == 0 || list[q.client] == q.sid then {} else {list[q.client]}
  }

  // What a session answered silently was created as.
  predicate AnsweredAs(b: Birth, record: Shared, shared: Id, client: string, ask: SilentAsk, now: Time) {
    && b.subject == record.subject && b.shared == shared && b.client == client
    && b.basis == Reused(ask, record.ways, now) && SignInAge.Answers(record.ways, ask, now, b.way)
  }

  // It is noted of a sign-in's session whether a sign-out reaches it.
  predicate IsNoted(s: Sys, sid: Id) {
    sid in s.past.covered || sid in s.past.missed
  }

  // What a sign-in's shared session is stored as when it is joined, or made.

  predicate SignsInAs(q: Request, subject: string, client: string, way: Way, basis: Basis) {
    q.subject == subject && q.client == client && q.way == way && q.basis == basis
  }

  function FirstRecord(q: Request): Shared {
    Kept(Shared(q.subject, [], 0), q.way)
  }

  lemma FirstRecordEnds(q: Request)
    ensures FirstRecord(q).expiresAt == if 0 < q.way.ends then q.way.ends else 0
  {
    assert Without([], q.way.loginMethod) + [q.way] == [q.way];
  }

  predicate Stored(s: Sys, q: Request) {
    q.shared in s.store.shared && s.store.shared[q.shared] == q.record
  }

  /** The same person's, with the way added; or a new one with that way alone, when the
      browser's was another's, or is gone. */
  predicate HasJoined(s: Sys, t: Sys, r: nat, shared: Id, subject: string, way: Way)
    requires r in t.reqs
  {
    var q := t.reqs[r];
    && Stored(t, q)
    && if q.shared == shared
       then shared in s.store.shared && s.store.shared[shared].subject == subject
            && q.record == Kept(s.store.shared[shared], way)
       else q.record == Kept(Shared(subject, [], 0), way) && q.shared !in s.past.used && shared !in t.store.shared
  }

  predicate AllGone(s: Sys, sids: set<Id>) {
    forall sid <- sids :: Gone(s, sid)
  }

  lemma StayGone(config: Config, s: Sys, t: Sys, sids: set<Id>)
    requires Follows(config, s, t) && AllGone(s, sids)
    ensures AllGone(t, sids)
  {
    var run, i: nat, j: nat :| Run(run, config) && i <= j < |run| && run[i] == s && run[j] == t;
    EndedStaysEnded(run, config, i, j);
  }

  lemma GrantStaysGone(config: Config, s: Sys, t: Sys, key: Id)
    requires Follows(config, s, t) && KeyGone(s, key)
    ensures key !in t.store.refresh
  {
    var run, i: nat, j: nat :| Run(run, config) && i <= j < |run| && run[i] == s && run[j] == t;
    KeysStayGone(run, config, i, j, key);
  }

  // A session's refresh token was drawn.
  lemma TokenIsDrawn(config: Config, s: Sys, sid: Id)
    requires Follows(config, s, s) && sid in s.store.sessions && s.store.sessions[sid].refreshKey != 0
    ensures s.store.sessions[sid].refreshKey in s.past.used
  {
    var run, i: nat, j: nat :| Run(run, config) && i <= j < |run| && run[i] == s && run[j] == s;
    RunIsRight(run, config, i);
    assert SessionOk(s.past, sid, s.store.sessions[sid]);
  }

  lemma BornStays(config: Config, s: Sys, t: Sys, sid: Id)
    requires Follows(config, s, t) && sid in s.past.born
    ensures sid in t.past.born && t.past.born[sid] == s.past.born[sid]
  {
    var run, i: nat, j: nat :| Run(run, config) && i <= j < |run| && run[i] == s && run[j] == t;
    EndedStaysEnded(run, config, i, j);
  }

  lemma RecordStaysGone(config: Config, s: Sys, t: Sys, id: Id)
    requires Follows(config, s, t)
    ensures SharedGone(s, id) ==> id !in t.store.shared
  {
    var run, i: nat, j: nat :| Run(run, config) && i <= j < |run| && run[i] == s && run[j] == t;
    EndedStaysEnded(run, config, i, j);
  }

  lemma GoesForward(config: Config, s: Sys, t: Sys)
    requires Follows(config, s, t)
    ensures 0 < s.now <= t.now && Grows(s.past, t.past) && t.config == s.config == config
  {
    var run, i: nat, j: nat :| Run(run, config) && i <= j < |run| && run[i] == s && run[j] == t;
    EndedStaysEnded(run, config, i, j);
    RunIsRight(run, config, i);
    RunIsRight(run, config, j);
  }

  // No shared session is named 0, and none under an id not drawn.
  lemma NoneIsStored(config: Config, s: Sys)
    requires Follows(config, s, s)
    ensures 0 in s.past.used && 0 !in s.store.shared
  {
    var run, i: nat, j: nat :| Run(run, config) && i <= j < |run| && run[i] == s && run[j] == s;
    RunIsRight(run, config, i);
  }

  lemma NoneStillStored(config: Config, s: Sys, t: Sys)
    requires Follows(config, s, t)
    ensures 0 !in t.store.shared
  {
    Here(config, s, t);
    NoneIsStored(config, t);
  }

  // A session not listed because its record has ended is not there.
  lemma UnlistedIsGone(config: Config, s: Sys, r: nat)
    requires Follows(config, s, s) && At(s, r, Recording) && Makes(s.reqs[r])
    requires s.reqs[r].record.expiresAt <= s.now
    ensures s.reqs[r].sid !in s.store.sessions
  {
    var run, i: nat, j: nat :| Run(run, config) && i <= j < |run| && run[i] == s && run[j] == s;
    RunIsRight(run, config, i);
    assert RightAt(s, r);
    if s.reqs[r].sid in s.store.sessions { LivingIsListed(s, r); }
  }

  lemma PeopleStay(config: Config, s: Sys, t: Sys, id: Id)
    requires Follows(config, s, t) && id in s.past.people
    ensures id in t.past.people
  {
    var run, i: nat, j: nat :| Run(run, config) && i <= j < |run| && run[i] == s && run[j] == t;
    EndedStaysEnded(run, config, i, j);
  }

  // A record stored was made for someone.
  lemma StoredIsMade(config: Config, s: Sys, id: Id)
    requires Follows(config, s, s) && id in s.store.shared
    ensures id in s.past.people
  {
    var run, i: nat, j: nat :| Run(run, config) && i <= j < |run| && run[i] == s && run[j] == s;
    RunIsRight(run, config, i);
  }

  // A session that a request is to end, and has ended, is gone.
  lemma EndedIsGone(config: Config, s: Sys, r: nat, t: Sys, sid: Id)
    requires Follows(config, s, t) && r in s.reqs && sid in s.reqs[r].ending && sid !in t.store.sessions
    ensures Gone(t, sid)
  {
    var run, i: nat, j: nat :| Run(run, config) && i <= j < |run| && run[i] == s && run[j] == t;
    RunIsRight(run, config, i);
    assert RightAt(s, r);
    EndedStaysEnded(run, config, i, j);
  }

  class Service {
    const config: Config
    var sys: Sys

    ghost predicate Since(from: Sys)
      reads this
    {
      Follows(config, from, sys)
    }

    constructor (config: Config)
      requires 0 < config.ttl
      ensures this.config == config && sys == Start(config) && Since(sys)
    {
      this.config := config;
      sys := Start(config);
      new;
      ghost var run := [Start(config)];
      assert Run(run, config) && run[0] == sys;
    }

    /** One store call: a step of the machine. */
    method Do(a: Action, t: Sys, ghost from: Sys)
      requires Since(from) && Step(sys, a, t)
      modifies this
      ensures Since(from) && sys == t
    {
      StepFollows(config, from, sys, a, t);
      sys := t;
    }

    /** What other requests do meanwhile: of the steps offered, those that can be taken. */
    method Others(r: nat, steps: seq<(Action, Sys)>, ghost from: Sys)
      requires Since(from)
      modifies this
      ensures Since(from) && Spares(old(sys).reqs, sys.reqs, r)
    {
      for i := 0 to |steps|
        invariant Since(from) && Spares(old(sys).reqs, sys.reqs, r)
      {
        var a, t := steps[i].0, steps[i].1;
        if Step(sys, a, t) && (a.Tick? || a.r != r) {
          OthersSpare(sys, a, t, r);
          Do(a, t, from);
        }
      }
    }

    /** endAppSession: an app session's refresh grant, then the session. */
    method EndAppSession(r: nat, sid: Id, others: Schedule, ghost from: Sys)
      requires Since(from) && At(sys, r, Ending) && sid in sys.reqs[r].ending
      modifies this
      ensures Since(from) && At(sys, r, Ending) && sys.reqs[r].after == old(sys).reqs[r].after
      ensures sys.reqs[r].ending == old(sys).reqs[r].ending - {sid} && Alike(sys.reqs[r], old(sys).reqs[r])
      ensures sid !in sys.store.sessions
      ensures sid in old(sys).store.sessions && old(sys).store.sessions[sid].refreshKey != 0 ==>
                old(sys).store.sessions[sid].refreshKey !in sys.store.refresh
    {
      var q := sys.reqs[r];
      var sess := LoadSession(sys.store, sid);
      var key := if sess.Some? then sess.value.refreshKey else 0;
      Here(config, from, sys);
      if key != 0 { TokenIsDrawn(config, sys, sid); }
      Do(PickEnd(r, sid), Goes(sys, r, q.(pc := EndingGrant, target := sid, targetKey := key), sys.store), from);
      ghost var picked := sys;
      Here(config, from, picked);
      Others(r, others(0), picked);
      GoesForward(config, picked, sys);
      FollowsOn(config, from, picked, sys);
      EndItsGrant(r, others, from);
    }

    method EndItsGrant(r: nat, others: Schedule, ghost from: Sys)
      requires Since(from) && At(sys, r, EndingGrant)
      requires sys.reqs[r].targetKey != 0 ==> sys.reqs[r].targetKey in sys.past.used
      modifies this
      ensures Since(from) && At(sys, r, Ending) && sys.reqs[r].after == old(sys).reqs[r].after
      ensures var q := old(sys).reqs[r];
              && sys.reqs[r].ending == q.ending - {q.target} && Alike(sys.reqs[r], q)
              && q.target !in sys.store.sessions && (q.targetKey != 0 ==> q.targetKey !in sys.store.refresh)
    {
      var q := sys.reqs[r];
      var store := if q.targetKey == 0 then sys.store else DeleteRefresh(sys.store, q.targetKey);
      Do(EndGrant(r), Goes(sys, r, q.(pc := EndingSession), store), from);
      ghost var s := sys;
      Here(config, from, s);
      Others(r, others(1), s);
      var p := sys.reqs[r];
      store := DeleteSession(sys.store, p.target);
      Do(EndSession(r), Goes(sys, r, p.(pc := Ending, ending := p.ending - {p.target}), store), s);
      if q.targetKey != 0 { GrantStaysGone(config, s, sys, q.targetKey); }
      FollowsOn(config, from, s, sys);
    }

    /** Each of the sessions a request is to end, which are gone then for good. */
    method EndEach(r: nat, sids: set<Id>, others: Schedule, ghost from: Sys)
      requires Since(from) && At(sys, r, Ending) && sys.reqs[r].ending == sids
      modifies this
      ensures Since(from) && AllGone(sys, sids)
      ensures At(sys, r, Ending) && sys.reqs[r].after == old(sys).reqs[r].after && sys.reqs[r].ending == {}
      ensures Alike(sys.reqs[r], old(sys).reqs[r])
      decreases |sids|
    {
      if sids == {} {
        return;
      }
      var sid :| sid in sids;
      ghost var s := sys;
      Here(config, from, s);
      EndAppSession(r, sid, others, s);
      EndedIsGone(config, s, r, sys, sid);
      FollowsOn(config, from, s, sys);
      s := sys;
      Here(config, from, s);
      EndEach(r, sids - {sid}, Later(others, 2), s);
      FollowsOn(config, from, s, sys);
      StayGone(config, s, sys, {sid});
      assert forall x :: x in sids ==> x in sids - {sid} || x in {sid};
    }

    /** And the request goes on, or is answered. */
    method EndAppSessions(r: nat, others: Schedule, ghost from: Sys)
      requires Since(from) && At(sys, r, Ending)
      modifies this
      ensures Since(from) && AllGone(sys, old(sys).reqs[r].ending)
      ensures if old(sys).reqs[r].after == Over then r !in sys.reqs
              else At(sys, r, old(sys).reqs[r].after) && Alike(sys.reqs[r], old(sys).reqs[r])
    {
      EndEach(r, sys.reqs[r].ending, others, from);
      var q := sys.reqs[r];
      if q.after == Over {
        Do(EndOver(r), Done(sys, r, sys.store), from);
      } else {
        Do(EndOver(r), Goes(sys, r, q.(pc := q.after), sys.store), from);
      }
    }

    /** The record goes; of two ends at once, from one of them only. */
    method DropRecord(r: nat, ghost from: Sys) returns (removed: bool)
      requires Since(from) && At(sys, r, Dropping)
      modifies this
      ensures Since(from) && old(sys).reqs[r].shared !in sys.store.shared
      ensures old(sys).past.people.Keys <= sys.past.people.Keys
      ensures if removed then sys.reqs.Keys == old(sys).reqs.Keys && sys.reqs[r] == old(sys).reqs[r].(pc := Taking)
              else At(sys, r, Ending) && sys.reqs[r] == Ends(old(sys).reqs[r], {}, old(sys).reqs[r].after)
    {
      var q := sys.reqs[r];
      var (store, gone) := DropShared(sys.store, q.shared);
      if gone {
        var past := sys.past.(ends := sys.past.ends + multiset{q.shared});
        Do(Drop(r), Goes(sys, r, q.(pc := Taking), store).(past := past), from);
      } else {
        Do(Drop(r), Goes(sys, r, Ends(q, {}, q.after), sys.store), from);
      }
      return gone;
    }

    /** endShared: the record goes for good; of two ends at once, only the one it went
        from takes its list and ends what that named. Then the request goes on, or is
        answered. */
    method EndShared(r: nat, others: Schedule, ghost from: Sys)
      requires Since(from) && At(sys, r, Dropping)
      modifies this
      ensures Since(from)
      ensures if old(sys).reqs[r].after == Over then r !in sys.reqs
              else At(sys, r, old(sys).reqs[r].after) && Alike(sys.reqs[r], old(sys).reqs[r])
      ensures old(sys).reqs[r].shared in old(sys).past.people ==> old(sys).reqs[r].shared !in sys.store.shared
    {
      ghost var id := sys.reqs[r].shared;
      var removed := DropRecord(r, from);
      ghost var s := sys;
      Here(config, from, s);
      if removed {
        Others(r, others(0), s);
        var q := sys.reqs[r];
        var (left, apps) := TakeSharedApps(sys.store, q.shared);
        Do(Take(r), Goes(sys, r, Ends(q, apps.Values, q.after), left), s);
        Others(r, others(1), s);
      }
      EndAppSessions(r, Later(others, 2), s);
      RecordStaysGone(config, s, sys, id);
      FollowsOn(config, from, s, sys);
    }

    /** joinShared, once a sign-in is complete: the same person's shared session gains
        the way, unless it ended meanwhile; anyone else's is ended; and a new one is
        made where there is none to join. */
    method JoinShared(
      r: nat, subject: string, client: string, loginMethod: string, proof: Proof, shared: Id, others: Schedule,
      ghost from: Sys) returns (ok: bool)
      requires Since(from) && r !in sys.reqs && (shared != 0 ==> shared in sys.store.shared)
      requires ProofOk(proof, sys.now) && Moment(proof, sys.now).Some?
      modifies this
      ensures Since(from)
      ensures if ok then At(sys, r, Creating) && sys.reqs[r].kind == SignIn else r !in sys.reqs
      ensures var way := NewWay(old(sys), loginMethod, Moment(proof, old(sys).now).value);
              ok ==> && SignsInAs(sys.reqs[r], subject, client, way, Proved(proof, old(sys).now))
                     && HasJoined(old(sys), sys, r, shared, subject, way)
      ensures shared != 0 && old(sys).store.shared[shared].subject != subject ==> shared !in sys.store.shared
    {
      ghost var first := sys;
      Here(config, from, first);
      NoneIsStored(config, first);
      if shared != 0 { StoredIsMade(config, first, shared); }
      var pc := StartSignIn(r, subject, client, loginMethod, proof, shared, first);
      Others(r, others(0), first);
      GoesForward(config, first, sys);
      if pc == Joining {
        ok := JoinOne(r, others, first);
      } else if pc == Dropping {
        ok := JoinNone(r, others, first);
      } else {
        ok := MakeOne(r, first);
        NoneStillStored(config, first, sys);
      }
      FollowsOn(config, from, first, sys);
    }

    /** The sign-in is complete: what is to be done with the browser's shared session. */
    method StartSignIn(
      r: nat, subject: string, client: string, loginMethod: string, proof: Proof, shared: Id, ghost from: Sys)
      returns (pc: PC)
      requires Since(from) && r !in sys.reqs && (shared != 0 ==> shared in sys.store.shared)
      requires ProofOk(proof, sys.now) && Moment(proof, sys.now).Some?
      modifies this
      ensures Since(from) && At(sys, r, pc) && sys.reqs[r].kind == SignIn && sys.past.used == old(sys).past.used
      ensures var way := NewWay(old(sys), loginMethod, Moment(proof, old(sys).now).value);
              && SignsInAs(sys.reqs[r], subject, client, way, Proved(proof, old(sys).now))
              && if shared == 0 then pc == MakingShared
                 else && sys.reqs[r].shared == shared
                      && if old(sys).store.shared[shared].subject == subject
                         then && pc == Joining && sys.reqs[r].record == Kept(old(sys).store.shared[shared], way)
                              && way.ends <= sys.reqs[r].record.expiresAt
                         else pc == Dropping && sys.reqs[r].after == MakingShared
    {
      var way := NewWay(sys, loginMethod, Moment(proof, sys.now).value);
      var q := Begin(SignIn, MakingShared).(
        client := client, subject := subject, way := way, basis := Proved(proof, sys.now));
      if shared != 0 {
        var sh := sys.store.shared[shared];
        if sh.subject == subject {
          q := q.(pc := Joining, shared := shared, record := Kept(sh, way));
          assert way in q.record.ways;
        } else {
          q := q.(pc := Dropping, after := MakingShared, shared := shared);
        }
      }
      var past := sys.past.(signIns := sys.past.signIns + {(subject, sys.now)});
      Do(BeginSignIn(r, subject, client, loginMethod, proof, shared),
         Goes(sys, r, q, sys.store).(past := past), from);
      return q.pc;
    }

    /** The way is added to the record, if that is still there; else a new one is made. */
    method JoinOne(r: nat, others: Schedule, ghost from: Sys) returns (ok: bool)
      requires Since(from) && At(sys, r, Joining) && sys.reqs[r].kind == SignIn
      requires sys.reqs[r].shared in from.past.people && sys.reqs[r].way.ends <= sys.reqs[r].record.expiresAt
      modifies this
      ensures Since(from)
      ensures if ok then At(sys, r, Creating) && Alike(sys.reqs[r], old(sys).reqs[r]) else r !in sys.reqs
      ensures ok ==>
                var p, q := old(sys).reqs[r], sys.reqs[r];
                && Stored(sys, q)
                && if q.shared == p.shared then q.record == p.record
                   else q.record == FirstRecord(q) && q.shared !in old(sys).past.used && p.shared !in sys.store.shared
    {
      var q := sys.reqs[r];
      var (store, joined) := ReplaceShared(sys.store, sys.now, q.shared, q.record);
      if joined {
        Do(Join(r), Goes(sys, r, q.(pc := Creating), store), from);
        return true;
      }
      ghost var s := sys;
      Here(config, from, s);
      Do(Join(r), Goes(sys, r, q.(pc := MakingShared), sys.store), s);
      Others(r, others(1), s);
      GoesForward(config, s, sys);
      ok := MakeOne(r, s);
      GoesForward(config, from, s);
      RecordStaysGone(config, s, sys, q.shared);
      FollowsOn(config, from, s, sys);
    }

    /** Another person's shared session is ended, and a new one made. */
    method JoinNone(r: nat, others: Schedule, ghost from: Sys) returns (ok: bool)
      requires Since(from) && At(sys, r, Dropping) && sys.reqs[r].kind == SignIn && sys.reqs[r].after == MakingShared
      requires sys.reqs[r].shared in sys.past.people
      modifies this
      ensures Since(from)
      ensures if ok then At(sys, r, Creating) && Alike(sys.reqs[r], old(sys).reqs[r]) else r !in sys.reqs
      ensures old(sys).reqs[r].shared !in sys.store.shared
      ensures ok ==> var q := sys.reqs[r];
                     Stored(sys, q) && q.record == FirstRecord(q) && q.shared !in old(sys).past.used
    {
      ghost var first, id := sys, sys.reqs[r].shared;
      Here(config, from, first);
      EndShared(r, Later(others, 3), first);
      ghost var s := sys;
      Here(config, first, s);
      GoesForward(config, first, s);
      Others(r, others(1), s);
      GoesForward(config, s, sys);
      ok := MakeOne(r, s);
      RecordStaysGone(config, s, sys, id);
      FollowsOn(config, first, s, sys);
      FollowsOn(config, from, first, sys);
    }

    method MakeOne(r: nat, ghost from: Sys) returns (ok: bool)
      requires Since(from) && At(sys, r, MakingShared) && sys.reqs[r].kind == SignIn
      modifies this
      ensures Since(from)
      ensures if ok then At(sys, r, Creating) && Alike(sys.reqs[r], old(sys).reqs[r]) else r !in sys.reqs
      ensures ok ==> var q := sys.reqs[r];
                     && Stored(sys, q) && q.record == FirstRecord(q) && q.shared !in old(sys).past.used
                     && (0 < old(sys).now ==> old(sys).now < q.way.ends)
    {
      var q := sys.reqs[r];
      FirstRecordEnds(q);
      var id := Draw(sys.past.used);
      var record := FirstRecord(q);
      var (store, made) := CreateShared(sys.store, sys.now, id, record);
      if !made.Created? {
        Do(MakeShared(r, id), Done(sys, r, sys.store), from);
        return false;
      }
      var past := sys.past.(used := sys.past.used + {id}, people := sys.past.people[id := q.subject]);
      q := q.(pc := Creating, shared := id, record := record);
      Do(MakeShared(r, id), Goes(sys, r, q, store).(past := past), from);
      return true;
    }

    /** The app session is created, under a key never drawn. */
    method CreateApp(r: nat, ghost from: Sys)
      requires Since(from) && At(sys, r, Creating)
      modifies this
      ensures Since(from) && At(sys, r, Recording) && sys.reqs[r].sid in sys.past.born && sys.reqs[r].sid != 0
      ensures var q := sys.reqs[r]; sys.past.born[q.sid] == Birth(q.subject, q.shared, q.client, q.way, q.basis)
      ensures sys.reqs[r] == old(sys).reqs[r].(pc := Recording, sid := sys.reqs[r].sid)
    {
      Here(config, from, sys);
      NoneIsStored(config, sys);
      var q := sys.reqs[r];
      var sid := Draw(sys.past.used);
      var sess := NO_SESSION.(subject := q.subject, loginMethod := q.way.loginMethod, authTime := q.way.authTime,
                              shared := q.shared, expiresAt := q.way.ends);
      var store := if sys.now < q.way.ends then sys.store.(sessions := sys.store.sessions[sid := sess]) else sys.store;
      var past := sys.past.(used := sys.past.used + {sid},
                            born := sys.past.born[sid := Birth(q.subject, q.shared, q.client, q.way, q.basis)]);
      Do(Create(r, sid), Goes(sys, r, q.(pc := Recording, sid := sid), store).(past := past), from);
    }

    /** addSharedApp. At `listed` the session is in the list, under its client; what its
        client had there before is gone when this is done. One that could not be listed
        has ended; a silent answer ends its own, and a sign-in goes on. Either way it is
        noted whether a sign-out reaches a sign-in's. */
    method RecordApp(r: nat, others: Schedule, ghost from: Sys) returns (goesOn: bool, ghost listed: Sys)
      requires Since(from) && At(sys, r, Recording) && Makes(sys.reqs[r])
      modifies this
      ensures Since(from) && Follows(config, listed, sys)
      ensures if goesOn
              then At(sys, r, if old(sys).reqs[r].kind == Silent then Checking else SavingCode)
                   && Alike(sys.reqs[r], old(sys).reqs[r])
              else old(sys).reqs[r].kind == Silent && r !in sys.reqs && AllGone(sys, {old(sys).reqs[r].sid})
      ensures var q := old(sys).reqs[r];
              if old(sys).now < q.record.expiresAt
              then && goesOn
                   && listed.store
                      == PutSharedApp(old(sys).store, old(sys).now, q.shared, q.client, q.sid, q.record.expiresAt).0
                   && AllGone(sys, Before(old(sys), q))
              else goesOn <==> q.kind == SignIn
      ensures old(sys).reqs[r].kind == SignIn ==> IsNoted(sys, old(sys).reqs[r].sid)
    {
      if sys.reqs[r].record.expiresAt <= sys.now {
        goesOn := Unlisted(r, others, from);
        listed := sys;
        Here(config, from, sys);
        return;
      }
      ListIt(r, from);
      listed := sys;
      Here(config, from, listed);
      Others(r, others(0), listed);
      EndAppSessions(r, Later(others, 1), listed);
      GoesForward(config, listed, sys);
      FollowsOn(config, from, listed, sys);
      return true, listed;
    }

    method ListIt(r: nat, ghost from: Sys)
      requires Since(from) && At(sys, r, Recording) && sys.now < sys.reqs[r].record.expiresAt
      modifies this
      ensures Since(from)
      ensures var q := old(sys).reqs[r];
              && sys.store
                 == PutSharedApp(old(sys).store, old(sys).now, q.shared, q.client, q.sid, q.record.expiresAt).0
              && r in sys.reqs && sys.reqs[r] == WithNext(q, Before(old(sys), q))
              && (q.kind == SignIn ==> IsNoted(sys, q.sid))
    {
      var q := sys.reqs[r];
      var (store, previous) := PutSharedApp(sys.store, sys.now, q.shared, q.client, q.sid, q.record.expiresAt);
      var past := sys.past.(
        shortened := sys.past.shortened || CutsShort(sys, q.shared, q.client, q.record.expiresAt),
        covered := sys.past.covered + NowCovered(sys, q, true), missed := sys.past.missed + NowMissed(sys, q));
      var before := if previous.value == 0 || previous.value == q.sid then {} else {previous.value};
      Do(Record(r), Goes(sys, r, WithNext(q, before), store).(past := past), from);
    }

    method Unlisted(r: nat, others: Schedule, ghost from: Sys) returns (goesOn: bool)
      requires Since(from) && At(sys, r, Recording) && Makes(sys.reqs[r])
      requires sys.reqs[r].record.expiresAt <= sys.now
      modifies this
      ensures Since(from)
      ensures goesOn <==> old(sys).reqs[r].kind == SignIn
      ensures if goesOn then At(sys, r, SavingCode) && Alike(sys.reqs[r], old(sys).reqs[r])
                             && old(sys).reqs[r].sid in sys.past.covered
              else r !in sys.reqs && AllGone(sys, {old(sys).reqs[r].sid})
    {
      var q := sys.reqs[r];
      Here(config, from, sys);
      UnlistedIsGone(config, sys, r);
      var past := sys.past.(covered := sys.past.covered + NowCovered(sys, q, false));
      if q.kind == SignIn {
        Do(Record(r), Goes(sys, r, q.(pc := SavingCode), sys.store).(past := past), from);
        return true;
      }
      Do(Record(r), Goes(sys, r, Ends(q, {q.sid}, Over), sys.store).(past := past), from);
      Others(r, others(0), from);
      EndAppSessions(r, Later(others, 1), from);
      return false;
    }

    method SaveTheCode(r: nat, ghost from: Sys)
      requires Since(from) && At(sys, r, SavingCode)
      modifies this
      ensures Since(from) && r !in sys.reqs
      ensures old(sys).reqs[r].kind == Silent ==> old(sys).reqs[r].sid in sys.past.covered
    {
      var q := sys.reqs[r];
      var code := Draw(sys.past.used);
      var covered := if q.kind == Silent then sys.past.covered + {q.sid} else sys.past.covered;
      var store := SaveAppCode(sys.store, sys.now, code, AppCode(q.sid, q.client, "", "", []), APP_CODE_TTL);
      var past := sys.past.(used := sys.past.used + {code}, covered := covered);
      Do(SaveCode(r, code), Done(sys, r, store).(past := past), from);
    }

    /** Whether the answer stands: only if its record is still there; else its session
        is ended. */
    method Stands(r: nat, others: Schedule, ghost from: Sys) returns (stands: bool)
      requires Since(from) && At(sys, r, Checking)
      modifies this
      ensures Since(from)
      ensures if stands then At(sys, r, SavingCode) && sys.reqs[r] == old(sys).reqs[r].(pc := SavingCode)
              else r !in sys.reqs && AllGone(sys, {old(sys).reqs[r].sid})
    {
      var q := sys.reqs[r];
      if LoadShared(sys.store, q.shared).Some? {
        Do(Check(r), Goes(sys, r, q.(pc := SavingCode), sys.store), from);
        return true;
      }
      Do(Check(r), Goes(sys, r, Ends(q, {q.sid}, Over), sys.store), from);
      Others(r, others(0), from);
      EndAppSessions(r, Later(others, 1), from);
      return false;
    }

    /** answerFromShared. A session answered is the shared session's person's and the
        client's, by the most recent way that fits the request, and one a sign-out
        reaches; one not answered is gone when the request goes on. Where no way
        answers, nothing is done. */
    method AnswerFromShared(r: nat, shared: Id, client: string, ask: SilentAsk, others: Schedule)
      returns (answered: bool, sid: Id)
      requires Since(sys) && r !in sys.reqs && shared in sys.store.shared
      modifies this
      ensures Since(old(sys)) && r !in sys.reqs
      ensures var record, now := old(sys).store.shared[shared], old(sys).now;
              if answered
              then && sid in sys.past.covered && sid in sys.past.born
                   && AnsweredAs(sys.past.born[sid], record, shared, client, ask, now)
              else AllGone(sys, {sid}) || (sys == old(sys) && forall w :: !SignInAge.Answers(record.ways, ask, now, w))
    {
      ghost var from := sys;
      sid := 0;
      answered := StartSilent(r, shared, client, ask, from);
      if !answered {
        return;
      }
      Others(r, others(0), from);
      CreateApp(r, from);
      sid := sys.reqs[r].sid;
      ghost var s := sys;
      Here(config, from, s);
      Others(r, others(1), s);
      answered := Finish(r, Later(others, 2), s);
      BornStays(config, s, sys, sid);
      FollowsOn(config, from, s, sys);
    }

    /** The way that is to answer is chosen. */
    method StartSilent(r: nat, shared: Id, client: string, ask: SilentAsk, ghost from: Sys) returns (found: bool)
      requires Since(from) && r !in sys.reqs && shared in sys.store.shared
      modifies this
      ensures Since(from)
      ensures var record, now := old(sys).store.shared[shared], old(sys).now;
              if found
              then && At(sys, r, Creating) && sys.reqs[r].kind == Silent
                   && var q := sys.reqs[r];
                   && AnsweredAs(Birth(q.subject, q.shared, q.client, q.way, q.basis), record, shared, client, ask, now)
              else sys == old(sys) && forall w :: !SignInAge.Answers(record.ways, ask, now, w)
    {
      var sh := sys.store.shared[shared];
      var answer := SharedWay(sh.ways, ask, sys.now);
      if !answer.Answered? {
        return false;
      }
      var q := Begin(Silent, Creating).(
        client := client, subject := sh.subject, shared := shared, way := answer.way,
        basis := Reused(ask, sh.ways, sys.now), record := sh);
      Do(BeginSilent(r, shared, client, ask, answer.way), Goes(sys, r, q, sys.store), from);
      return true;
    }

    /** What is left of a silent answer once its session is made. */
    method Finish(r: nat, others: Schedule, ghost from: Sys) returns (answered: bool)
      requires Since(from) && At(sys, r, Recording) && Makes(sys.reqs[r]) && sys.reqs[r].kind == Silent
      modifies this
      ensures Since(from) && r !in sys.reqs
      ensures if answered then old(sys).reqs[r].sid in sys.past.covered else AllGone(sys, {old(sys).reqs[r].sid})
    {
      ghost var listed;
      answered, listed := RecordApp(r, Later(others, 5), from);
      if !answered {
        return;
      }
      Others(r, others(2), from);
      answered := Stands(r, Later(others, 7), from);
      if !answered {
        return;
      }
      Others(r, others(3), from);
      SaveTheCode(r, from);
    }

    /** saveSignedIn, and its code: the person's shared session joined or made, and the
        app session a sign-in of theirs makes, for its whole lifetime. Its time meets
        the max_age it was asked for; and it is noted whether a sign-out reaches it. */
    method SaveSignedIn(
      r: nat, subject: string, client: string, loginMethod: string, proof: Proof, shared: Id, others: Schedule)
      returns (ok: bool, sid: Id)
      requires Since(sys) && r !in sys.reqs && (shared != 0 ==> shared in sys.store.shared)
      requires ProofOk(proof, sys.now) && Moment(proof, sys.now).Some?
      modifies this
      ensures Since(old(sys)) && r !in sys.reqs
      ensures ok ==>
                && sid in sys.past.born && IsNoted(sys, sid)
                && var b := sys.past.born[sid];
                && b.subject == subject && b.client == client && b.basis == Proved(proof, old(sys).now)
                && b.way.loginMethod == loginMethod && Moment(proof, old(sys).now) == Some(b.way.authTime)
                && b.way.signedIn == old(sys).now && b.way.ends == old(sys).now + old(sys).config.ttl
    {
      ghost var from := sys;
      sid := 0;
      ok := JoinShared(r, subject, client, loginMethod, proof, shared, Later(others, 4), from);
      if !ok {
        return;
      }
      Others(r, others(0), from);
      CreateApp(r, from);
      sid := sys.reqs[r].sid;
      ghost var s := sys;
      Here(config, from, s);
      Others(r, others(1), s);
      FinishSignIn(r, Later(others, 2), s);
      BornStays(config, s, sys, sid);
      FollowsOn(config, from, s, sys);
    }

    /** What is left of a sign-in once its session is made. */
    method FinishSignIn(r: nat, others: Schedule, ghost from: Sys)
      requires Since(from) && At(sys, r, Recording) && Makes(sys.reqs[r]) && sys.reqs[r].kind == SignIn
      modifies this
      ensures Since(from) && r !in sys.reqs && IsNoted(sys, old(sys).reqs[r].sid)
    {
      ghost var sid := sys.reqs[r].sid;
      var _, listed := RecordApp(r, Later(others, 6), from);
      ghost var recorded := sys;
      Here(config, from, recorded);
      Others(r, others(0), recorded);
      SaveTheCode(r, recorded);
      GoesForward(config, recorded, sys);
      FollowsOn(config, from, recorded, sys);
    }

    /** A sign-out of the browser's shared session: it is gone for good. */
    method SignOut(r: nat, shared: Id, others: Schedule)
      requires Since(sys) && r !in sys.reqs && shared in sys.store.shared
      modifies this
      ensures Since(old(sys)) && r !in sys.reqs && shared !in sys.store.shared
    {
      ghost var from := sys;
      StoredIsMade(config, from, shared);
      Do(Logout(r, shared), Goes(sys, r, Begin(SharedMachine.SignOut, Dropping).(shared := shared), sys.store), from);
      Others(r, others(0), from);
      PeopleStay(config, from, sys, shared);
      EndShared(r, Later(others, 1), from);
    }
  }
}
