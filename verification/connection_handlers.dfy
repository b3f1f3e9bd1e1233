/** The code exchange and the refresh of an AI app as the code runs them
    (routes/aiapp.go): one store call after another, the session's copy changed on the
    way, and any steps of other requests in between. What they make is part of a run
    of the connection machine. */
module ConnectionHandlers {
  import opened StoreModel
  import opened ConnectionMachine
  import opened ConnectionInvariant
  import opened ConnectionEffects
  import opened ConnectionKept
  import opened ConnectionTheorems
  import opened Interleaving

  lemma SigningSpares(s: Sys, a: Action, t: Sys, r: nat)
    requires IsConnecting(a) || IsRedeeming(a)
    requires Step(s, a, t) && (a.Tick? || a.r != r)
    ensures Spares(s.reqs, t.reqs, r)
  {}

  lemma RenewingSpares(s: Sys, a: Action, t: Sys, r: nat)
    requires IsIssuing(a) || IsPresenting(a) || IsRenewing(a)
    requires Step(s, a, t) && (a.Tick? || a.r != r)
    ensures Spares(s.reqs, t.reqs, r)
  {}

  lemma EndingSpares(s: Sys, a: Action, t: Sys, r: nat)
    requires !IsConnecting(a) && !IsRedeeming(a) && !IsIssuing(a) && !IsPresenting(a) && !IsRenewing(a)
    requires Step(s, a, t) && (a.Tick? || a.r != r)
    ensures Spares(s.reqs, t.reqs, r)
  {}

  // Only an action's own request is moved.
  lemma OthersSpare(s: Sys, a: Action, t: Sys, r: nat)
    requires Step(s, a, t) && (a.Tick? || a.r != r)
    ensures Spares(s.reqs, t.reqs, r)
  {
    if IsConnecting(a) || IsRedeeming(a) {
      SigningSpares(s, a, t, r);
    } else if IsIssuing(a) || IsPresenting(a) || IsRenewing(a) {
      RenewingSpares(s, a, t, r);
    } else {
      EndingSpares(s, a, t, r);
    }
  }

  type Schedule = Interleaving.Schedule<Action, Sys>

  /** Some run of the machine goes through s, and then through t. */
  ghost predicate Follows(s: Sys, t: Sys) {
    exists run: seq<Sys>, i: nat, j: nat :: Run(run) && i <= j < |run| && run[i] == s && run[j] == t
  }

  lemma StepFollows(from: Sys, s: Sys, a: Action, t: Sys)
    requires Follows(from, s) && Step(s, a, t)
    ensures Follows(from, t)
  {
    var run, i: nat, j: nat :| Run(run) && i <= j < |run| && run[i] == from && run[j] == s;
    var longer := run[..j + 1] + [t];
    forall k: nat | k + 1 < |longer| ensures NextAt(longer, k) {
      if k < j { assert NextAt(run, k); } else { assert Next(s, t); }
    }
    assert longer[i] == from && longer[j + 1] == t;
  }

  class Service {
    var sys: Sys

    ghost predicate Since(from: Sys)
      reads this
    {
      Follows(from, sys)
    }

    constructor ()
      ensures sys == START && Since(sys)
    {
      sys := START;
      new;
      ghost var run := [START];
      assert Run(run) && run[0] == sys;
    }

    /** One store call: a step of the machine. */
    method Do(a: Action, t: Sys, ghost from: Sys)
      requires Since(from) && Step(sys, a, t)
      modifies this
      ensures Since(from) && sys == t
    {
      StepFollows(from, sys, a, t);
      sys := t;
    }

    /** What other requests do meanwhile: of the steps offered, those that can be taken. */
    method Others(r: nat, steps: seq<(Action, Sys)>, ghost from: Sys)
      requires Since(from)
      modifies this
      ensures Since(from) && Spares(old(sys).reqs, sys.reqs, r)
    {
      for i := 0 to |steps|
        invariant Since(from) && Spares(old(sys).reqs, sys.reqs, r)
      {
        var a, t := steps[i].0, steps[i].1;
        if Step(sys, a, t) && (a.Tick? || a.r != r) {
          OthersSpare(sys, a, t, r);
          Do(a, t, from);
        }
      }
    }

    // endConnection, call by call.

    /** One refresh grant goes: the session's own, then the one the request was sent with. */
    method DeleteGrant(r: nat, ghost from: Sys)
      requires Since(from) && (At(sys, r, EndingOwnGrant) || At(sys, r, EndingKeyGrant))
      modifies this
      ensures Since(from)
      ensures var q := old(sys).reqs[r];
              var own := q.pc == EndingOwnGrant;
              var key := if own then q.sess.refreshKey else q.key;
              && r in sys.reqs && sys.reqs[r] == q.(pc := if own then EndingKeyGrant else EndingIndex)
              && (key != 0 ==> key !in sys.store.refresh) && sys.store.sessions == old(sys).store.sessions
    {
      var q := sys.reqs[r];
      var own := q.pc == EndingOwnGrant;
      var key := if own then q.sess.refreshKey else q.key;
      var store := if key == 0 then sys.store else DeleteRefresh(sys.store, key);
      if own {
        Do(DeleteOwnGrant(r), Goes(sys, r, q.(pc := EndingKeyGrant), store), from);
      } else {
        Do(DeleteKeyGrant(r), Goes(sys, r, q.(pc := EndingIndex), store), from);
      }
    }

    method RemoveTheLine(r: nat, ghost from: Sys)
      requires Since(from) && At(sys, r, EndingIndex)
      modifies this
      ensures Since(from) && r !in sys.reqs && old(sys).reqs[r].sid !in sys.store.sessions
      ensures HasNoLine(sys, old(sys).reqs[r].sid, old(sys).reqs[r].sess)
    {
      var q := sys.reqs[r];
      var entry := EntryOf(q.sid, MadeOf(q.sess));
      GoneByTheEnd(from, sys, r);
      var store := if q.sess.sid == 0 then sys.store else RemoveConnection(sys.store, entry.0, entry.1);
      Do(RemoveEnded(r), Done(sys, r, store), from);
    }

    /** endConnection, of a session loaded before: when it is done the session is gone,
        and its line, whatever else was done meanwhile; and each grant went as its turn
        came. */
    method EndConnection(r: nat, others: Schedule, ghost from: Sys)
      requires Since(from) && At(sys, r, Ending)
      modifies this
      ensures Since(from) && r !in sys.reqs && old(sys).reqs[r].sid !in sys.store.sessions
      ensures HasNoLine(sys, old(sys).reqs[r].sid, old(sys).reqs[r].sess)
    {
      var q := sys.reqs[r];
      Do(DeleteEnded(r), Goes(sys, r, q.(pc := EndingOwnGrant), DeleteSession(sys.store, q.sid)), from);
      Others(r, others(0), from);
      DeleteGrant(r, from);
      Others(r, others(2), from);
      DeleteGrant(r, from);
      Others(r, others(1), from);
      RemoveTheLine(r, from);
    }

    // appCodeExchange, part by part.

    /** The code is spent, whatever comes of it, and its session loaded, if the code was
        this client's and the session is the one it was for. */
    method Redeem(r: nat, code: Id, clientID: string, bad: bool, others: Schedule, ghost from: Sys)
      returns (found: bool)
      requires Since(from) && r !in sys.reqs
      modifies this
      ensures Since(from)
      ensures if found
              then code in old(sys).store.codes && old(sys).store.codes[code].value.clientID == clientID
                   && At(sys, r, Redeemed) && sys.reqs[r].sid == old(sys).store.codes[code].value.sessionID
              else r !in sys.reqs
    {
      var (store, c) := ConsumeAppCode(sys.store, code);
      if c.None? || c.value.clientID != clientID {
        Do(SpendCode(r, code, clientID), if c.None? then sys else sys.(store := store), from);
        return false;
      }
      var q := Begin(Redeeming, c.value.sessionID).(clientID := clientID, assistant := c.value.assistant);
      Do(SpendCode(r, code, clientID), Goes(sys, r, q, store), from);
      if bad {
        Do(Refuse(r), Done(sys, r, sys.store), from);
        return false;
      }
      Others(r, others(0), from);
      var sess := LoadSession(sys.store, q.sid);
      found := sess.Some? && q.assistant != ""
               && sess.value.assistant == q.assistant && sess.value.clientID == q.clientID;
      if found {
        Do(LoadForCode(r), Goes(sys, r, q.(pc := Redeemed, sess := sess.value), sys.store), from);
      } else {
        Do(LoadForCode(r), Done(sys, r, sys.store), from);
      }
    }

    /** Its first refresh token is kept, and the connection named. */
    method SaveFirst(r: nat, ghost from: Sys) returns (ok: bool)
      requires Since(from) && At(sys, r, Redeemed)
      modifies this
      ensures Since(from)
      ensures if ok then At(sys, r, SavingConnection) && sys.reqs[r].sid == old(sys).reqs[r].sid else r !in sys.reqs
    {
      var q := sys.reqs[r];
      var key := Draw(sys.past.used);
      var name := Draw(sys.past.used + {key});
      var (store, kept) :=
        SaveRefresh(sys.store, sys.now, key, RefreshGrant(q.sid, q.clientID, false), q.sess.expiresAt);
      var past := sys.past.(used := sys.past.used + {key, name}, owner := sys.past.owner[key := q.sid],
                            named := sys.past.named[name := q.sid]);
      if kept {
        q := q.(pc := SavingConnection, sess := q.sess.(refreshKey := key, sid := name));
        Do(SaveFirstGrant(r, key, name), Goes(sys, r, q, store).(past := past), from);
      } else {
        Do(SaveFirstGrant(r, key, name), Done(sys, r, sys.store).(past := past), from);
      }
      return kept;
    }

    /** The session becomes the connection's, if it is still there. */
    method SaveSession(r: nat, ghost from: Sys) returns (ok: bool)
      requires Since(from) && At(sys, r, SavingConnection)
      modifies this
      ensures Since(from)
      ensures if ok then At(sys, r, Indexing) && sys.reqs[r].sid == old(sys).reqs[r].sid else r !in sys.reqs
    {
      var q := sys.reqs[r];
      var (store, saved) := ReplaceSession(sys.store, sys.now, q.sid, q.sess);
      if saved {
        var past := sys.past.(connected := sys.past.connected[q.sid := MadeOf(q.sess)]);
        Do(SaveConnection(r), Goes(sys, r, q.(pc := Indexing), store).(past := past), from);
      } else {
        Do(SaveConnection(r), Done(sys, r, sys.store), from);
      }
      return saved;
    }

    /** And is kept in its assistant's index, before the app holds a token. */
    method IndexIt(r: nat, ghost from: Sys) returns (ok: bool)
      requires Since(from) && At(sys, r, Indexing)
      modifies this
      ensures Since(from) && r !in sys.reqs && (ok ==> old(sys).reqs[r].sid in sys.past.answered)
    {
      var q := sys.reqs[r];
      var entry := EntryOf(q.sid, MadeOf(q.sess));
      var (store, kept) := AddConnection(sys.store, sys.now, entry.0, entry.1, q.sess.expiresAt);
      if kept {
        var past := sys.past.(given := sys.past.given + {q.sess.refreshKey}, answered := sys.past.answered + {q.sid});
        Do(IndexConnection(r), Done(sys, r, store).(past := past), from);
      } else {
        Do(IndexConnection(r), Done(sys, r, sys.store), from);
      }
      return kept;
    }

    /** appCodeExchange. A code answers once, and connects a session that was not
        connected before, whatever other requests do between its calls. `bad` is that a
        check of what was sent fails, `gone` the register's answer that the assistant
        is, `down` that it could not answer. */
    method AppCodeExchange(
      r: nat, code: Id, clientID: string, bad: bool, gone: bool, down: bool, others: Schedule) returns (ok: bool)
      requires Since(sys) && r !in sys.reqs
      modifies this
      ensures Since(old(sys)) && r !in sys.reqs
      ensures ok ==> code in old(sys).store.codes && old(sys).store.codes[code].value.clientID == clientID
                     && old(sys).store.codes[code].value.sessionID !in old(sys).past.connected
                     && old(sys).store.codes[code].value.sessionID in sys.past.answered
    {
      ghost var from := sys;
      NotYetConnected(from, code);
      ok := Redeem(r, code, clientID, bad, Later(others, 6), from);
      if !ok {
        return;
      }
      Others(r, others(0), from);
      if gone {
        Do(EndsConnection(r), Goes(sys, r, sys.reqs[r].(pc := Ending), sys.store), from);
        Others(r, others(1), from);
        EndConnection(r, Later(others, 8), from);
        return false;
      }
      if down {
        Do(Refuse(r), Done(sys, r, sys.store), from);
        return false;
      }
      ok := SaveFirst(r, from);
      if !ok {
        return;
      }
      Others(r, others(1), from);
      ok := SaveSession(r, from);
      if !ok {
        return;
      }
      Others(r, others(2), from);
      ok := IndexIt(r, from);
    }

    // appRefresh, part by part.

    /** The session of a token found is loaded; where it has ended, its grant goes too. */
    method LoadOrDrop(r: nat, others: Schedule, ghost from: Sys) returns (found: bool)
      requires Since(from) && At(sys, r, Renewing)
      modifies this
      ensures Since(from)
      ensures if found then At(sys, r, Renewal) && sys.reqs[r].key == old(sys).reqs[r].key
              else r !in sys.reqs && old(sys).reqs[r].key !in sys.store.refresh
    {
      var q := sys.reqs[r];
      var sess := LoadSession(sys.store, q.sid);
      if sess.Some? {
        Do(LoadForRenewal(r), Goes(sys, r, q.(pc := Renewal, sess := sess.value), sys.store), from);
        return true;
      }
      Do(LoadForRenewal(r), Goes(sys, r, q.(pc := DroppingGrant), sys.store), from);
      Others(r, others(0), from);
      Do(DropGrant(r), Done(sys, r, DeleteRefresh(sys.store, sys.reqs[r].key)), from);
      return false;
    }

    /** The token is looked up, and its session loaded; in vain where the token is not
        kept, not this client's, or its session has ended. */
    method Present(r: nat, key: Id, clientID: string, others: Schedule, ghost from: Sys) returns (found: bool)
      requires Since(from) && r !in sys.reqs && key in sys.past.given
      modifies this
      ensures Since(from)
      ensures if found then At(sys, r, Renewal) && sys.reqs[r].key == key && GrantFor(old(sys), key, clientID)
              else r !in sys.reqs && (GrantFor(old(sys), key, clientID) ==> key !in sys.store.refresh)
    {
      if !GrantFor(sys, key, clientID) {
        Do(PresentInVain(r, key, clientID),
           if key in sys.store.refresh then sys else sys.(past := Replays(sys.past, key)), from);
        return false;
      }
      var grant := LoadRefresh(sys.store, key).value;
      var q := Begin(Renewing, grant.sessionID).(clientID := clientID, key := key, rotated := grant.rotated);
      Do(PresentRefresh(r, key, clientID), Goes(sys, r, q, sys.store).(past := Replays(sys.past, key)), from);
      Others(r, others(0), from);
      found := LoadOrDrop(r, Later(others, 1), from);
    }

    /** The token is claimed in one step: kept by no one else from then on; or found
        used, which ends the connection; or gone. */
    method ClaimToken(r: nat, ghost from: Sys) returns (claimed: bool, used: bool)
      requires Since(from) && At(sys, r, Renewal) && !sys.reqs[r].rotated
      modifies this
      ensures Since(from)
      ensures claimed ==> At(sys, r, SavingNext) && sys.reqs[r].key == old(sys).reqs[r].key
                          && sys.reqs[r].sid == old(sys).reqs[r].sid && sys.reqs[r].key !in old(sys).past.taken
      ensures !claimed && used ==> At(sys, r, Ending) && sys.reqs[r].sid == old(sys).reqs[r].sid
      ensures !claimed && !used ==> r !in sys.reqs
    {
      var q := sys.reqs[r];
      var (store, grant) := TakeRefresh(sys.store, q.key);
      if grant.None? {
        Do(Claim(r), Done(sys, r, sys.store), from);
        return false, false;
      }
      if grant.value.rotated || grant.value.sessionID != q.sid {
        Do(Claim(r), Goes(sys, r, q.(pc := Ending), store), from);
        return false, true;
      }
      NotTakenBefore(from, sys, q.key);
      var past := sys.past.(taken := sys.past.taken + {q.key});
      Do(Claim(r), Goes(sys, r, q.(pc := SavingNext), store).(past := past), from);
      return true, false;
    }

    /** The next token is kept. */
    method SaveTheNext(r: nat, ghost from: Sys) returns (ok: bool, next: Id)
      requires Since(from) && At(sys, r, SavingNext)
      modifies this
      ensures Since(from) && next !in old(sys).past.used
      ensures if ok then At(sys, r, Marking) && sys.reqs[r] == old(sys).reqs[r].(pc := Marking, next := next)
              else r !in sys.reqs
    {
      var q := sys.reqs[r];
      next := Draw(sys.past.used);
      var (store, kept) :=
        SaveRefresh(sys.store, sys.now, next, RefreshGrant(q.sid, q.clientID, false), q.sess.expiresAt);
      var past := sys.past.(used := sys.past.used + {next}, owner := sys.past.owner[next := q.sid]);
      if kept {
        Do(SaveNext(r, next), Goes(sys, r, q.(pc := Marking, next := next), store).(past := past), from);
      } else {
        Do(SaveNext(r, next), Done(sys, r, sys.store).(past := past), from);
      }
      return kept, next;
    }

    /** And the one presented again, marked used. */
    method MarkUsed(r: nat, ghost from: Sys) returns (ok: bool)
      requires Since(from) && At(sys, r, Marking)
      modifies this
      ensures Since(from)
      ensures var q := old(sys).reqs[r];
              if ok then At(sys, r, SavingRenewal)
                         && sys.reqs[r] == q.(pc := SavingRenewal, sess := q.sess.(refreshKey := q.next))
              else r !in sys.reqs
    {
      var q := sys.reqs[r];
      var (store, kept) :=
        SaveRefresh(sys.store, sys.now, q.key, RefreshGrant(q.sid, q.clientID, true), q.sess.expiresAt);
      if kept {
        var past := sys.past.(marked := sys.past.marked[q.key := q.sid]);
        q := q.(pc := SavingRenewal, sess := q.sess.(refreshKey := q.next));
        Do(Mark(r), Goes(sys, r, q, store).(past := past), from);
      } else {
        Do(Mark(r), Done(sys, r, sys.store), from);
      }
      return kept;
    }

    /** The session is saved under its new token, if it is still there, and the app is
        answered. */
    method Answer(r: nat, ghost from: Sys) returns (ok: bool)
      requires Since(from) && At(sys, r, SavingRenewal)
      modifies this
      ensures Since(from) && r !in sys.reqs
      ensures var q := old(sys).reqs[r];
              ok ==> && sys.past.renewals[q.key] == 1 && q.next in sys.past.given
                     && q.sid in sys.store.sessions && sys.store.sessions[q.sid] == q.sess
    {
      var q := sys.reqs[r];
      var (store, saved) := ReplaceSession(sys.store, sys.now, q.sid, q.sess);
      if !saved {
        Do(SaveRenewal(r), Done(sys, r, sys.store), from);
        return false;
      }
      var past := sys.past.(given := sys.past.given + {q.next}, renewals := sys.past.renewals + multiset{q.key});
      Do(SaveRenewal(r), Done(sys, r, store).(past := past), from);
      RenewedOnce(from, sys, q.key);
      return true;
    }

    /** What is left of a refresh once its token is claimed. */
    method Renew(r: nat, others: Schedule, ghost from: Sys) returns (ok: bool, next: Id)
      requires Since(from) && At(sys, r, SavingNext)
      modifies this
      ensures Since(from) && r !in sys.reqs
      ensures var q := old(sys).reqs[r];
              ok ==> && sys.past.renewals[q.key] == 1 && next in sys.past.given && next !in from.past.used
                     && q.sid in sys.store.sessions && sys.store.sessions[q.sid].refreshKey == next
    {
      Others(r, others(0), from);
      TakenGrows(from, sys);
      ok, next := SaveTheNext(r, from);
      if !ok {
        return;
      }
      Others(r, others(1), from);
      ok := MarkUsed(r, from);
      if !ok {
        return;
      }
      Others(r, others(2), from);
      ok := Answer(r, from);
    }

    /** appRefresh. Whatever other requests do between its calls, what it does is part of
        a run of the machine; it renews a token once, that no one had claimed before, and
        the session then names the new one it answers; and where it ends the connection,
        the session of that token is gone when it answers. */
    method AppRefresh(r: nat, key: Id, clientID: string, gone: bool, down: bool, others: Schedule)
      returns (answer: RefreshAnswer)
      requires Since(sys) && r !in sys.reqs && key in sys.past.given
      modifies this
      ensures Since(old(sys)) && r !in sys.reqs
      ensures !answer.Refused? ==> GrantFor(old(sys), key, clientID)
      ensures answer.Renewed? ==>
                && key !in old(sys).past.taken && sys.past.renewals[key] == 1 && OwnKey(old(sys).past, answer.sid, key)
                && answer.next !in old(sys).past.used && answer.next in sys.past.given
                && answer.sid in sys.store.sessions && sys.store.sessions[answer.sid].refreshKey == answer.next
      ensures answer.Ended? ==> OwnKey(old(sys).past, answer.sid, key) && answer.sid !in sys.store.sessions
    {
      ghost var from := sys;
      var found := Present(r, key, clientID, Later(others, 4), from);
      if !found {
        return Refused;
      }
      Others(r, others(0), from);
      var sid := sys.reqs[r].sid;
      PresentedOwn(from, sys, r);
      if sys.reqs[r].rotated || gone {
        Do(EndsConnection(r), Goes(sys, r, sys.reqs[r].(pc := Ending), sys.store), from);
        Others(r, others(1), from);
        EndConnection(r, Later(others, 8), from);
        return Ended(sid);
      }
      if down {
        Do(Refuse(r), Done(sys, r, sys.store), from);
        return Refused;
      }
      TakenGrows(from, sys);
      var claimed, used := ClaimToken(r, from);
      if !claimed && !used {
        return Refused;
      }
      if !claimed {
        Others(r, others(1), from);
        EndConnection(r, Later(others, 8), from);
        return Ended(sid);
      }
      var ok, next := Renew(r, Later(others, 8), from);
      return if ok then Renewed(sid, next) else Refused;
    }
  }

  // The session's line is not in the index it would be in.
  predicate HasNoLine(s: Sys, sid: Id, sess: Session) {
    sess.sid != 0 ==> (IndexKey(sess.tenant, sess.assistant), Connection(sess.sid, sid)) !in s.store.index
  }

  datatype RefreshAnswer = Renewed(sid: Id, next: Id) | Refused | Ended(sid: Id)

  lemma GoneByTheEnd(from: Sys, s: Sys, r: nat)
    requires Follows(from, s) && At(s, r, EndingIndex)
    ensures s.reqs[r].sid !in s.store.sessions
  {
    var run, i: nat, j: nat :| Run(run) && i <= j < |run| && run[i] == from && run[j] == s;
    RunIsRight(run, j);
    assert RightAt(s, r);
  }

  lemma PresentedOwn(from: Sys, s: Sys, r: nat)
    requires Follows(from, s) && At(s, r, Renewal) && s.reqs[r].key in from.past.given
    ensures OwnKey(from.past, s.reqs[r].sid, s.reqs[r].key)
  {
    var run, i: nat, j: nat :| Run(run) && i <= j < |run| && run[i] == from && run[j] == s;
    RunIsRight(run, i);
    RunIsRight(run, j);
    EndedStaysEnded(run, i, j, 0);
    assert RightAt(s, r) && Same(from.past.owner, s.past.owner, s.reqs[r].key);
  }

  lemma NotYetConnected(s: Sys, code: Id)
    requires Follows(s, s)
    ensures code in s.store.codes ==> s.store.codes[code].value.sessionID !in s.past.connected
  {
    var run, i: nat, j: nat :| Run(run) && i <= j < |run| && run[i] == s && run[j] == s;
    RunIsRight(run, j);
    if code in s.store.codes { assert Holds(s, Code(code), s.store.codes[code].value.sessionID, true); }
  }

  lemma NotTakenBefore(from: Sys, s: Sys, key: Id)
    requires Follows(from, s) && Unrotated(s, key)
    ensures key !in s.past.taken
  {
    var run, i: nat, j: nat :| Run(run) && i <= j < |run| && run[i] == from && run[j] == s;
    RunIsRight(run, j);
  }

  lemma TakenGrows(from: Sys, s: Sys)
    requires Follows(from, s)
    ensures from.past.taken <= s.past.taken && from.past.used <= s.past.used
  {
    var run, i: nat, j: nat :| Run(run) && i <= j < |run| && run[i] == from && run[j] == s;
    EndedStaysEnded(run, i, j, 0);
  }

  lemma RenewedOnce(from: Sys, s: Sys, key: Id)
    requires Follows(from, s)
    ensures s.past.renewals[key] <= 1
  {
    var run, i: nat, j: nat :| Run(run) && i <= j < |run| && run[i] == from && run[j] == s;
    RenewsAtMostOnce(run, j, key);
  }
}
