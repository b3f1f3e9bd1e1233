/** How each action of the shared-session machine keeps the invariant. An action's
    effect is described once, by what changes; what an effect of that shape keeps is
    proved once for all. */
module SharedEffects {
  import opened StoreModel
  import opened SharedWays
  import opened Memberships
  import opened SharedMachine
  import opened SharedInvariant

  /** What has happened stays so. */
  ghost predicate Grows(p: Past, q: Past) {
    && p.used <= q.used && p.signIns <= q.signIns && p.ends <= q.ends && p.covered <= q.covered
    && p.missed <= q.missed && p.tokens <= q.tokens && (p.faulty ==> q.faulty) && (p.shortened ==> q.shortened)
    && Extends(p.people, q.people) && Extends(p.born, q.born) && Extends(p.bound, q.bound)
    && Extends(p.owner, q.owner)
  }

  ghost predicate NoneComesBack(s: Sys, t: Sys) {
    forall k :: k in t.store.sessions ==> k in s.store.sessions || k !in s.past.born
  }

  /** Only request r moves on, and to a place that is true of it; and no session
      comes back. */
  ghost predicate RequestEffect(s: Sys, t: Sys, r: nat) {
    && NoneComesBack(s, t)
    && (forall o :: o in t.reqs && o != r ==> Same(s.reqs, t.reqs, o))
    && (r in t.reqs ==> RightAt(t, r))
  }

  ghost predicate StoreEffect(s: Sys, t: Sys) {
    && (forall k :: k in t.store.codes ==>
                      Same(s.store.codes, t.store.codes, k) || CodeOk(t.past, t.store.codes[k].value))
    && (forall k :: k in t.store.sessions ==>
                      Same(s.store.sessions, t.store.sessions, k) || SessionOk(t.past, k, t.store.sessions[k]))
    && (forall k :: k in t.store.refresh ==>
                      Same(s.store.refresh, t.store.refresh, k) || GrantOk(t.past, k, t.store.refresh[k].value))
    && (forall k :: k in t.store.shared ==>
                      Same(s.store.shared, t.store.shared, k)
                      || (k in t.past.people && RecordOk(t.config, t.past, t.past.people[k], t.store.shared[k])))
  }

  // No binding, no list, no shared session is made; none ended.

  ghost predicate KeepsBindings(s: Sys, t: Sys) {
    t.past.bound == s.past.bound && forall k :: k in t.store.sessions ==> Same(s.store.sessions, t.store.sessions, k)
  }

  ghost predicate KeepsLists(s: Sys, t: Sys) {
    forall k :: k in t.store.apps ==> Same(s.store.apps, t.store.apps, k)
  }

  ghost predicate KeepsEnded(s: Sys, t: Sys) {
    t.past.ends == s.past.ends && t.store.shared.Keys <= s.store.shared.Keys
  }

  ghost predicate KeepsRest(s: Sys, t: Sys) {
    KeepsBindings(s, t) && KeepsLists(s, t) && KeepsEnded(s, t)
  }

  lemma RequestStays(c: Config, p: Past, p': Past, q: Request)
    requires Grows(p, p') && RequestOk(c, p, q)
    ensures RequestOk(c, p', q)
  {}

  /** Request r goes on as q, which is right by what has happened; and no session comes
      back. */
  lemma GoesOnRight(s: Sys, t: Sys, r: nat, q: Request)
    requires t.config == s.config && Grows(s.past, t.past) && NoneComesBack(s, t)
    requires t.reqs == s.reqs[r := q] && RequestOk(s.config, s.past, q)
    ensures RequestEffect(s, t, r)
  {
    RequestStays(s.config, s.past, t.past, q);
  }

  // Where a request goes on to is right.

  lemma NextStands(c: Config, p: Past, q: Request, before: set<Id>)
    requires RequestOk(c, p, q) && q.pc == Recording && before <= p.born.Keys
    ensures RequestOk(c, p, WithNext(q, before))
  {}

  lemma UnlistedStands(c: Config, p: Past, q: Request)
    requires RequestOk(c, p, q) && q.pc == Recording
    ensures RequestOk(c, p, if q.kind == Silent then Ends(q, {q.sid}, Over) else q.(pc := SavingCode))
  {}

  lemma CheckedStands(c: Config, p: Past, q: Request)
    requires RequestOk(c, p, q) && q.pc == Checking
    ensures RequestOk(c, p, q.(pc := SavingCode)) && RequestOk(c, p, Ends(q, {q.sid}, Over))
  {}

  lemma MadeStands(c: Config, p: Past, q: Request, id: Id, record: Shared)
    requires RequestOk(c, p, q) && q.pc == MakingShared && IsShared(p, id, q.subject)
    requires RecordOk(c, p, q.subject, record) && q.way.ends <= record.expiresAt
    ensures RequestOk(c, p, q.(pc := Creating, shared := id, record := record))
  {}

  lemma RevokingStands(c: Config, p: Past, q: Request, shared: Id)
    requires RequestOk(c, p, q) && q.pc == Revoking
    ensures RequestOk(c, p, q.(pc := RevokingGrant)) && RequestOk(c, p, q.(pc := RevokingSession, shared := shared))
  {}

  /** A session given its first grant, and a token to answer. */
  lemma GrantStands(c: Config, p: Past, q: Request, key: Id, token: Token, out: Outcome)
    requires RequestOk(c, p, q) && q.pc == SavingGrant && OwnKey(p, q.sid, key)
    requires token.sid == q.sid && TokenFits(c, token, Binding(q.client, q.thumbprint, out.tenant))
    requires out.tenant != "" ==> q.client in c.membersOnly
    ensures RequestOk(c, p, q.(pc := SavingBinding, token := token,
                               sess := q.sess.(thumbprint := q.thumbprint, clientID := q.client, tenant := out.tenant,
                                               refreshKey := key)))
  {}

  lemma FalteredStands(c: Config, p: Past, q: Request)
    requires RequestOk(c, p, q) && q.pc in {Recording, Checking, Dropping, Taking, EndingGrant, EndingSession}
    ensures RequestOk(c, p, Faltered(q))
  {}

  lemma KeptIsRight(c: Config, p: Past, subject: string, sh: Shared, w: Way)
    requires RecordOk(c, p, subject, sh) && WayOk(c, p, subject, w)
    requires forall o :: o in sh.ways ==> o.signedIn <= w.signedIn
    ensures RecordOk(c, p, subject, Kept(sh, w)) && w.ends <= Kept(sh, w).expiresAt
  {
    WithoutKeepsTime(sh.ways, w.loginMethod);
    assert w in Kept(sh, w).ways;
  }

  /** What a renewal of a bound session answers fits its binding. */
  lemma RenewalFits(
    c: Config, p: Past, sid: Id, sess: Session, asked: seq<Membership>, baseline: seq<string>, out: Outcome)
    requires BoundAs(p, sid, sess) && (sess.tenant != "" ==> sess.clientID in c.membersOnly)
    requires UserScopes(sess.clientID in c.membersOnly, baseline, asked, sess.tenant) == Some(out)
    ensures TokenFits(c, Token(sid, sess.clientID, sess.thumbprint, asked, sess.tenant, out), p.bound[sid])
  {
    OneMembershipOrNone(baseline, asked, sess.tenant);
  }

  lemma EffectKeepsRequests(s: Sys, t: Sys, r: nat)
    requires t.config == s.config && RequestsOk(s) && Grows(s.past, t.past) && RequestEffect(s, t, r)
    ensures RequestsOk(t)
  {
    forall o | o in t.reqs ensures RightAt(t, o) {
      if o != r {
        assert Same(s.reqs, t.reqs, o) && RightAt(s, o);
        RequestStays(s.config, s.past, t.past, s.reqs[o]);
      }
    }
  }

  lemma EffectKeepsStore(s: Sys, t: Sys)
    requires t.config == s.config && StoreOk(s) && Grows(s.past, t.past) && StoreEffect(s, t)
    ensures StoreOk(t)
  {}

  lemma BindingsStay(s: Sys, t: Sys)
    requires Bindings(s) && KeepsBindings(s, t)
    ensures Bindings(t)
  {
    forall k | k in t.store.sessions ensures BindingStands(t, k) { assert BindingStands(s, k); }
  }

  lemma ListsStay(s: Sys, t: Sys)
    requires Lists(s) && Grows(s.past, t.past) && KeepsLists(s, t)
    ensures Lists(t)
  {
    forall id | id in t.store.apps ensures ListOk(t.past, id, t.store.apps[id].value) {
      assert ListOk(s.past, id, s.store.apps[id].value);
    }
  }

  lemma RestStays(s: Sys, t: Sys)
    requires Bindings(s) && Lists(s) && EndedGone(s) && Grows(s.past, t.past) && KeepsRest(s, t)
    ensures Bindings(t) && Lists(t) && EndedGone(t)
  {
    BindingsStay(s, t);
    ListsStay(s, t);
  }

  // Credentials

  ghost predicate OnlyLoses(s: Sys, t: Sys, r: nat) {
    && (forall k :: k in t.store.codes ==> Same(s.store.codes, t.store.codes, k))
    && (forall o :: o in t.reqs && o != r ==> Same(s.reqs, t.reqs, o))
    && (r in t.reqs && Holder(t.reqs[r]) ==>
          r in s.reqs && Holder(s.reqs[r]) && s.reqs[r].sid == t.reqs[r].sid)
    && t.past.bound == s.past.bound
  }

  /** Credential c of session sid gives way to d. */
  ghost predicate Moves(s: Sys, t: Sys, c: Credential, d: Credential, sid: Id) {
    && (forall e, x :: Holds(t, e, x) ==> (Holds(s, e, x) && e != c) || (e == d && x == sid && Holds(s, c, sid)))
    && t.past.bound == s.past.bound
  }

  lemma LosingKeepsLinear(s: Sys, t: Sys, r: nat)
    requires Linear(s) && OnlyLoses(s, t, r)
    ensures Linear(t)
  {
    assert forall o :: o in t.reqs && o != r ==> Same(s.reqs, t.reqs, o);
    forall c, sid | Holds(t, c, sid) ensures Holds(s, c, sid) {}
  }

  lemma MovingKeepsLinear(s: Sys, t: Sys, c: Credential, d: Credential, sid: Id)
    requires Linear(s) && Moves(s, t, c, d, sid)
    ensures Linear(t)
  {}

  // Sign-outs

  /** What was owed stays owed until it is gone; a session leaves a list only to be
      ended, or gone; and a list a sign-out is to take is not given up. */
  ghost predicate KeepsPromises(s: Sys, t: Sys, r: nat) {
    && NoneComesBack(s, t)
    && (forall o :: o in s.reqs && o != r ==> Same(s.reqs, t.reqs, o))
    && (forall sid :: Owes(s, r, sid) ==> Owes(t, r, sid) || sid !in t.store.sessions)
    && (forall sid :: Listed(s, sid) ==> Listed(t, sid) || Owes(t, r, sid) || sid !in t.store.sessions)
    && (forall sid :: Listed(s, sid)
                      && s.past.born[sid].shared in t.past.ends && s.past.born[sid].shared !in s.past.ends
          ==> Takes(t, r, s.past.born[sid].shared))
    && (forall id, sid :: Takes(s, r, id) && Listed(s, sid) && s.past.born[sid].shared == id ==>
          Takes(t, r, id) || Owes(t, r, sid) || sid !in t.store.sessions)
  }

  lemma OwedStays(s: Sys, t: Sys, r: nat, o: nat, sid: Id)
    requires KeepsPromises(s, t, r) && Owes(s, o, sid)
    ensures sid !in t.store.sessions || exists p :: Owes(t, p, sid)
  {
    if o == r {
      assert Owes(t, r, sid) || sid !in t.store.sessions;
    } else {
      assert Same(s.reqs, t.reqs, o) && Owes(t, o, sid);
    }
  }

  lemma RecordedStays(s: Sys, t: Sys, r: nat, sid: Id)
    requires Grows(s.past, t.past) && KeepsPromises(s, t, r) && sid in s.past.born && Recorded(s, sid)
    ensures Recorded(t, sid)
  {
    if sid in s.store.sessions && !Listed(s, sid) {
      var o :| Owes(s, o, sid);
      OwedStays(s, t, r, o, sid);
    }
  }

  lemma ReachedStays(s: Sys, t: Sys, r: nat, sid: Id)
    requires Grows(s.past, t.past) && KeepsPromises(s, t, r) && sid in s.past.born && Reached(s, sid)
    ensures Reached(t, sid)
  {
    if o :| Owes(s, o, sid) {
      OwedStays(s, t, r, o, sid);
    } else if sid in s.store.sessions {
      var id := s.past.born[sid].shared;
      assert Listed(t, sid) || Owes(t, r, sid) || sid !in t.store.sessions;
      if o :| Takes(s, o, id) {
        if o == r {
          assert Takes(t, r, id) || Owes(t, r, sid) || sid !in t.store.sessions;
        } else {
          assert Same(s.reqs, t.reqs, o) && Takes(t, o, id);
        }
      } else {
        assert id in t.past.ends ==> Takes(t, r, id);
      }
    }
  }

  /** Request r comes to no place a session of its own must be reached from that it
      was not at; and no answer is given. */
  predicate KeepsAnswers(s: Sys, t: Sys, r: nat) {
    && (ToCheck(t, r) ==> ToCheck(s, r) && t.reqs[r].sid == s.reqs[r].sid)
    && (Answering(t, r) ==> Answering(s, r) && t.reqs[r].sid == s.reqs[r].sid)
    && t.past.covered == s.past.covered
  }

  // Who knows of a session

  // Request r's own session, once it is recorded or failed to be.
  predicate Own(s: Sys, t: Sys, r: nat, sid: Id) {
    r in s.reqs && Makes(s.reqs[r]) && s.reqs[r].sid == sid && !ToRecord(t, r)
  }

  // Listed, and by request r taken from its list, or replaced in it.
  predicate LeavesList(s: Sys, r: nat, sid: Id) {
    Listed(s, sid) && (Takes(s, r, s.past.born[sid].shared) || (r in s.reqs && Replaces(s.reqs[r], s.past.born[sid])))
  }

  // Request r is what it was to whoever it owes an end.
  predicate GoesOnAlike(s: Sys, t: Sys, r: nat) {
    && r in s.reqs && r in t.reqs
    && var p, q := s.reqs[r], t.reqs[r];
    && p.kind == q.kind && p.sid == q.sid && p.shared == q.shared && p.client == q.client
  }

  /** Request r comes to owe the end only of its own session, or of one that leaves a
      list by it; only its own is listed; a list is to be taken only of a shared
      session not ended before; and a session is to be recorded only once made. */
  ghost predicate TellsFew(s: Sys, t: Sys, r: nat) {
    && (forall sid :: Owes(t, r, sid) ==>
                        GoesOnAlike(s, t, r) && (Owes(s, r, sid) || Own(s, t, r, sid) || LeavesList(s, r, sid)))
    && (forall sid :: Listed(t, sid) ==> Listed(s, sid) || Own(s, t, r, sid))
    && (forall id :: Takes(t, r, id) ==> Takes(s, r, id) || id !in s.past.ends)
    && (ToRecord(t, r) ==> t.reqs[r].sid !in s.past.born || (r in s.reqs && t.reqs[r] == s.reqs[r]))
  }

  /** What the past gains is right. */
  ghost predicate PastGain(c: Config, p: Past, q: Past) {
    && (forall sid :: sid in q.born ==> sid in p.born || BirthOk(c, q, q.born[sid]))
    && (forall sid :: sid in q.bound ==> sid in p.bound || BoundOk(c, q, sid))
    && (forall k :: k in q.owner ==> k in p.owner || q.owner[k] in q.born)
    && (forall t :: t in q.tokens ==> t in p.tokens || TokenOk(c, q, t))
    && q.covered <= q.born.Keys
    && (forall id :: id in q.ends ==> id in q.people && q.ends[id] == 1)
  }

  lemma GainKeepsPast(c: Config, p: Past, q: Past)
    requires PastOk(c, p) && Grows(p, q) && PastGain(c, p, q)
    ensures PastOk(c, q)
  {}

  /** What every action leaves right. */
  ghost predicate Advances(s: Sys, t: Sys) {
    t.config == s.config && s.now <= t.now && Grows(s.past, t.past) && Ids(t)
  }

  ghost predicate Onward(s: Sys, t: Sys) {
    Advances(s, t) && PastOk(t.config, t.past)
  }

  ghost predicate Right(s: Sys, t: Sys, r: nat) {
    Onward(s, t) && RequestEffect(s, t, r) && StoreEffect(s, t)
  }

  /** What a load of session sid answers. */
  ghost predicate LoadsRight(s: Sys, sid: Id) {
    sid in s.store.sessions ==> SessionOk(s.past, sid, s.store.sessions[sid]) && BindingStands(s, sid)
  }

  /** What an action may rely on: the request it moves on, and what its load
      answers; with what has happened. */
  ghost predicate Loaded(s: Sys, r: nat) {
    r in s.reqs ==> RightAt(s, r) && LoadsRight(s, s.reqs[r].sid)
  }

  ghost predicate SharedRight(s: Sys, id: Id) {
    id in s.store.shared ==>
      id in s.past.people && RecordOk(s.config, s.past, s.past.people[id], s.store.shared[id])
  }

  ghost predicate Local(s: Sys, r: nat) {
    Ids(s) && PastOk(s.config, s.past) && Loaded(s, r)
  }
}
