/** What a revocation, a used token and a look at an index come to, over every run
    (routes/aiapp.go, routes/connections.go). */
module ConnectionEnds {
  import opened StoreModel
  import opened ConnectionMachine
  import opened ConnectionInvariant
  import opened ConnectionEffects
  import opened ConnectionKept
  import opened ConnectionTheorems
  import ConnectionHandlers

  /** A request sent to end session sid: a revocation, one with a used token, or at the
      end itself. */
  predicate ToEnd(s: Sys, r: nat, sid: Id) {
    Due(s, r, sid) || (At(s, r, Revoking) && s.reqs[r].sid == sid)
  }

  lemma ToEndStays(s: Sys, a: Action, t: Sys, r: nat, sid: Id)
    requires Step(s, a, t) && ToEnd(s, r, sid) && (a.Tick? || a.r != r)
    ensures ToEnd(t, r, sid)
  {
    ConnectionHandlers.OthersSpare(s, a, t, r);
  }

  lemma NotWhileEnding(s: Sys, a: Action, t: Sys)
    requires IsConnecting(a) || IsIssuing(a) || IsLooking(a) || IsAnswering(a)
    requires !a.Tick? && a.r in s.reqs && s.reqs[a.r].pc in {Ending, Renewing, Renewal, Revoking}
    ensures !Step(s, a, t)
  {}

  lemma DueNext(s: Sys, a: Action, t: Sys, r: nat, sid: Id)
    requires Step(s, a, t) && Due(s, r, sid) && !a.Tick? && a.r == r && !t.past.faulty
    ensures Due(t, r, sid) || sid !in t.store.sessions
  {
    if IsConnecting(a) || IsIssuing(a) || IsLooking(a) || IsAnswering(a) { NotWhileEnding(s, a, t); }
  }

  lemma RevokingNext(s: Sys, a: Action, t: Sys, r: nat, sid: Id)
    requires Step(s, a, t) && At(s, r, Revoking) && s.reqs[r].sid == sid && !a.Tick? && a.r == r && !t.past.faulty
    ensures Due(t, r, sid) || sid !in t.store.sessions
  {
    if IsConnecting(a) || IsIssuing(a) || IsLooking(a) || IsAnswering(a) { NotWhileEnding(s, a, t); }
  }

  lemma ToEndOrGone(s: Sys, a: Action, t: Sys, r: nat, sid: Id)
    requires Inv(s) && Step(s, a, t) && (ToEnd(s, r, sid) || Gone(s, sid)) && !t.past.faulty
    ensures ToEnd(t, r, sid) || Gone(t, sid)
  {
    if Gone(s, sid) {
      EndedStaysEndedOnce(s, a, t, sid);
    } else if a.Tick? || a.r != r {
      ToEndStays(s, a, t, r, sid);
    } else {
      assert RightAt(s, r);
      InvKept(s, a, t);
      if Due(s, r, sid) { DueNext(s, a, t, r, sid); } else { RevokingNext(s, a, t, r, sid); }
    }
  }

  lemma ToEndInTheRun(run: seq<Sys>, j: nat, r: nat, sid: Id)
    requires Run(run) && j + 1 < |run| && (ToEnd(run[j], r, sid) || Gone(run[j], sid)) && !run[j + 1].past.faulty
    ensures ToEnd(run[j + 1], r, sid) || Gone(run[j + 1], sid)
  {
    RunIsRight(run, j);
    assert NextAt(run, j);
    var a :| Step(run[j], a, run[j + 1]);
    ToEndOrGone(run[j], a, run[j + 1], r, sid);
  }

  /** A request sent to end a session has ended it when it is over, unless some request
      failed. */
  lemma {:induction false} WhatIsToEndEnds(run: seq<Sys>, i: nat, j: nat, r: nat, sid: Id)
    requires Run(run) && i <= j < |run| && ToEnd(run[i], r, sid) && !run[j].past.faulty
    ensures ToEnd(run[j], r, sid) || Gone(run[j], sid)
    decreases j
  {
    if i < j {
      EndedStaysEnded(run, j - 1, j, sid);
      WhatIsToEndEnds(run, i, j - 1, r, sid);
      ToEndInTheRun(run, j - 1, r, sid);
    }
  }

  /** A revocation by the app the token was issued to ends its connection for good: once
      it is over, and nothing failed, the session is gone, and no token of its chain is
      renewed and none of its tokens exchanged from then on. By another app it does
      nothing. */
  lemma RevocationEndsTheConnection(
    run: seq<Sys>, i: nat, j: nat, k: nat, r: nat, key: Id, clientID: string, other: Id)
    requires Run(run) && i < j <= k < |run| && PresentRevokeStep(run[i], r, key, clientID, run[i + 1])
    requires r !in run[j].reqs && !run[j].past.faulty
    ensures if key in run[i].store.refresh && run[i].store.refresh[key].value.clientID == clientID
            then var sid := run[i].store.refresh[key].value.sessionID;
                 && OwnKey(run[i].past, sid, key) && Gone(run[k], sid)
                 && (OwnKey(run[j].past, sid, other) ==>
                       && run[k].past.exchanges[sid] == run[j].past.exchanges[sid]
                       && run[k].past.renewals[other] == run[j].past.renewals[other])
            else run[i + 1] == run[i]
  {
    if key in run[i].store.refresh && run[i].store.refresh[key].value.clientID == clientID {
      var sid := run[i].store.refresh[key].value.sessionID;
      RunIsRight(run, i);
      assert GrantOk(run[i].past, key, run[i].store.refresh[key]);
      WhatIsToEndEnds(run, i + 1, j, r, sid);
      EndedStaysEnded(run, j, k, sid);
      if OwnKey(run[j].past, sid, other) { NothingAfterTheEnd(run, j, k, sid, other); }
    }
  }

  // A look at a line of an index.

  // Request r is to look at the line, or to drop it.
  predicate Looks(s: Sys, r: nat, index: IndexKey, conn: Connection, purpose: Purpose) {
    && (At(s, r, Looking) || At(s, r, Cleaning))
    && s.reqs[r] == Begin(s.reqs[r].pc, conn.sessionID).(tenant := index.tenant, assistant := index.assistant,
                                                        name := conn.id, purpose := purpose)
  }

  lemma LooksStays(
    s: Sys, a: Action, t: Sys, r: nat, index: IndexKey, conn: Connection, purpose: Purpose)
    requires Step(s, a, t) && Looks(s, r, index, conn, purpose) && (a.Tick? || a.r != r)
    ensures Looks(t, r, index, conn, purpose)
  {
    ConnectionHandlers.OthersSpare(s, a, t, r);
  }

  lemma LookedMovesOn(s: Sys, a: Action, t: Sys, r: nat)
    requires Step(s, a, t) && !a.Tick? && a.r == r && (At(s, r, Looking) || At(s, r, Cleaning))
    ensures At(s, r, Looking) ==> a.MissLooked? || a.PassLooked? || a.EndLooked? || a.AcceptLooked? || a.Crash?
    ensures At(s, r, Cleaning) ==> a.Clean? || a.Crash?
  {}

  lemma LooksNext(s: Sys, a: Action, t: Sys, r: nat, index: IndexKey, conn: Connection, purpose: Purpose)
    requires Looks(s, r, index, conn, purpose) && Step(s, a, t) && !a.Tick? && a.r == r
    requires At(t, r, Looking) || At(t, r, Cleaning)
    ensures Looks(t, r, index, conn, purpose)
  {
    LookedMovesOn(s, a, t, r);
  }

  lemma {:induction false} LooksSince(
    run: seq<Sys>, i: nat, j: nat, r: nat, index: IndexKey, conn: Connection, purpose: Purpose)
    requires Run(run) && i <= j < |run| && Looks(run[i], r, index, conn, purpose)
    requires forall m :: i <= m <= j ==> LooksOn(run[m], r)
    ensures Looks(run[j], r, index, conn, purpose)
    decreases j
  {
    if i < j {
      LooksSince(run, i, j - 1, r, index, conn, purpose);
      assert NextAt(run, j - 1);
      var a :| Step(run[j - 1], a, run[j]);
      assert LooksOn(run[j], r);
      if !a.Tick? && a.r == r {
        LooksNext(run[j - 1], a, run[j], r, index, conn, purpose);
      } else {
        LooksStays(run[j - 1], a, run[j], r, index, conn, purpose);
      }
    }
  }

  predicate LooksOn(s: Sys, r: nat) {
    At(s, r, Looking) || At(s, r, Cleaning)
  }

  /** What was asked of the line: its own session, as that assistant in that tenant; for
      an exchange, of the token's person and app; for a sign-out of one's own, of that
      person. */
  predicate IsAsked(sess: Session, index: IndexKey, conn: Connection, purpose: Purpose) {
    && sess.sid == conn.id && sess.tenant == index.tenant && sess.assistant == index.assistant
    && match purpose
       case Exchange(subject, clientID) => sess.subject == subject && sess.clientID == clientID
       case SignOut(person) => person.Some? ==> sess.subject == person.value
       case List => false
  }

  /** What a look comes to by the session as it is loaded. Gone, the line is to be
      dropped. Not what was asked, nothing is done. As asked, a sign-out is to end it;
      and an exchange is accepted, at once where its use was noted within the minute,
      else with nothing of the session changed but that note. */
  predicate Decides(s: Sys, t: Sys, r: nat, index: IndexKey, conn: Connection, purpose: Purpose) {
    if conn.sessionID !in s.store.sessions then t == s.(reqs := t.reqs) && At(t, r, Cleaning)
    else
      var sess := s.store.sessions[conn.sessionID];
      if !IsAsked(sess, index, conn, purpose) then t == s.(reqs := Remove(s.reqs, r))
      else if purpose.SignOut? then t == s.(reqs := t.reqs) && Due(t, r, conn.sessionID)
      else if s.now - sess.lastUsed < 60_000
      then && t.reqs == Remove(s.reqs, r) && t.store == s.store
           && t.past.exchanges == s.past.exchanges + multiset{conn.sessionID}
      else && t == s.(reqs := t.reqs) && At(t, r, SavingUse) && t.reqs[r].sid == conn.sessionID
           && t.reqs[r].sess == sess.(lastUsed := s.now)
  }

  lemma AsItIsLoaded(s: Sys, t: Sys, r: nat, index: IndexKey, conn: Connection, purpose: Purpose)
    requires Looks(s, r, index, conn, purpose) && At(s, r, Looking)
    requires MissLookedStep(s, r, t) || PassLookedStep(s, r, t) || EndLookedStep(s, r, t) || AcceptLookedStep(s, r, t)
    ensures Decides(s, t, r, index, conn, purpose)
  {}

  /** So it does over every run, by what was asked when the look began; and where the line
      is to be dropped, that line goes and nothing else. */
  lemma LookDecides(
    run: seq<Sys>, i: nat, j: nat, r: nat, index: IndexKey, conn: Connection, purpose: Purpose, a: Action)
    requires Run(run) && i < j && j + 1 < |run| && LookStep(run[i], r, index, conn, purpose, run[i + 1])
    requires forall m :: i < m <= j ==> LooksOn(run[m], r)
    requires Step(run[j], a, run[j + 1]) && !a.Tick? && a.r == r && !a.Crash?
    ensures if At(run[j], r, Looking) then Decides(run[j], run[j + 1], r, index, conn, purpose)
            else run[j + 1] == run[j].(reqs := Remove(run[j].reqs, r), store := run[j + 1].store)
                 && run[j + 1].store == run[j].store.(index := run[j].store.index - {(index, conn)})
  {
    assert LooksOn(run[i + 1], r) && LooksOn(run[j], r);
    LooksSince(run, i + 1, j, r, index, conn, purpose);
    LookedMovesOn(run[j], a, run[j + 1], r);
    if At(run[j], r, Looking) { AsItIsLoaded(run[j], run[j + 1], r, index, conn, purpose); }
  }
}
