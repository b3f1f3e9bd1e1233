/** The life of an AI app's connection, over every run: any requests, interleaved in
    any way, any of them failing anywhere. */
module ConnectionTheorems {
  import opened StoreModel
  import opened ConnectionMachine
  import opened ConnectionInvariant
  import opened ConnectionEffects
  import opened ConnectionSteps
  import opened ConnectionKept

  lemma {:induction false} RunIsRight(run: seq<Sys>, i: nat)
    requires Run(run) && i < |run|
    ensures Inv(run[i])
  {
    if i == 0 {
      StartIsRight();
    } else {
      RunIsRight(run, i - 1);
      assert NextAt(run, i - 1);
      var a :| Step(run[i - 1], a, run[i]);
      InvKept(run[i - 1], a, run[i]);
    }
  }

  lemma EndedStaysEndedOnce(s: Sys, a: Action, t: Sys, sid: Id)
    requires Inv(s) && Step(s, a, t) && Gone(s, sid)
    ensures Gone(t, sid)
  {
    RightHolds(s, a, t);
  }

  /** A session ended is never stored again, and what its connection was made as
      never changes. */
  lemma {:induction false} EndedStaysEnded(run: seq<Sys>, i: nat, j: nat, sid: Id)
    requires Run(run) && i <= j < |run|
    ensures Grows(run[i].past, run[j].past)
    ensures Gone(run[i], sid) ==> Gone(run[j], sid)
    decreases j
  {
    if i < j {
      EndedStaysEnded(run, i, j - 1, sid);
      RunIsRight(run, j - 1);
      assert NextAt(run, j - 1);
      var a :| Step(run[j - 1], a, run[j]);
      InvKept(run[j - 1], a, run[j]);
      if Gone(run[j - 1], sid) { EndedStaysEndedOnce(run[j - 1], a, run[j], sid); }
    }
  }

  /** Whole-record saves of stale copies are harmless to what decides anything: the
      stored session of a connection, and every copy that may still be saved over
      it, are of the person, app, tenant, assistant, boxes, public name and end it
      was made with; and that stays so to the end of the run. */
  lemma StaleSavesAreHarmless(run: seq<Sys>, i: nat, j: nat, sid: Id)
    requires Run(run) && i <= j < |run| && sid in run[i].past.connected
    ensures sid in run[j].store.sessions ==> MadeOf(run[j].store.sessions[sid]) == run[i].past.connected[sid]
    ensures forall r :: r in run[j].reqs && run[j].reqs[r].sid == sid && HoldsMade(run[j].reqs[r].pc) ==>
                          MadeOf(run[j].reqs[r].sess) == run[i].past.connected[sid]
    ensures forall r :: r in run[j].reqs && run[j].reqs[r].sid == sid ==> !Pre(run[j].reqs[r].pc)
  {
    EndedStaysEnded(run, i, j, sid);
    RunIsRight(run, j);
    var s := run[j];
    forall r | r in s.reqs && s.reqs[r].sid == sid && HoldsMade(s.reqs[r].pc)
      ensures MadeOf(s.reqs[r].sess) == run[i].past.connected[sid]
    {
      assert RightAt(s, r);
    }
    forall r | r in s.reqs && s.reqs[r].sid == sid ensures !Pre(s.reqs[r].pc) {
      assert !Holds(s, Held(r), sid, true);
    }
  }

  // What carries a session on.

  function Tickets(s: Sys, sid: Id): set<Id> {
    set k | k in s.store.flows && s.store.flows[k].value.sessionID == sid
  }

  function Codes(s: Sys, sid: Id): set<Id> {
    set k | k in s.store.codes && s.store.codes[k].value.sessionID == sid
  }

  function UnusedTokens(s: Sys, sid: Id): set<Id> {
    set k | k in s.store.refresh && s.store.refresh[k].value.sessionID == sid && !s.store.refresh[k].value.rotated
  }

  function Spenders(s: Sys, sid: Id): set<nat> {
    set r | r in s.reqs && s.reqs[r].sid == sid && Spent(s.reqs[r].pc)
  }

  lemma AtMostOneCredential(s: Sys, sid: Id)
    requires forall c, d :: Holds(s, c, sid, false) && Holds(s, d, sid, false) ==> c == d
    ensures |Tickets(s, sid)| + |Codes(s, sid)| + |UnusedTokens(s, sid)| + |Spenders(s, sid)| <= 1
  {
    assert forall k :: k in Tickets(s, sid) ==> Holds(s, Ticket(k), sid, false);
    assert forall k :: k in Codes(s, sid) ==> Holds(s, Code(k), sid, false);
    assert forall k :: k in UnusedTokens(s, sid) ==> Holds(s, Grant(k), sid, false);
    assert forall r :: r in Spenders(s, sid) ==> Holds(s, Held(r), sid, false);
    AtMostOne(Tickets(s, sid));
    AtMostOne(Codes(s, sid));
    AtMostOne(UnusedTokens(s, sid));
    AtMostOne(Spenders(s, sid));
    if k :| k in Tickets(s, sid) {
    } else if k :| k in Codes(s, sid) {
    } else if k :| k in UnusedTokens(s, sid) {
    }
  }

  /** The renewing credential of a session is linear: its tickets, its unspent
      codes, its unused refresh tokens and the requests between spending one and
      saving the next are together at most one. So a connection never has two
      chains that renew. */
  lemma CredentialIsLinear(run: seq<Sys>, i: nat, sid: Id)
    requires Run(run) && i < |run|
    ensures var s := run[i];
            |Tickets(s, sid)| + |Codes(s, sid)| + |UnusedTokens(s, sid)| + |Spenders(s, sid)| <= 1
  {
    RunIsRight(run, i);
    AtMostOneCredential(run[i], sid);
  }

  /** A refresh token renews at most once. */
  lemma RenewsAtMostOnce(run: seq<Sys>, i: nat, key: Id)
    requires Run(run) && i < |run|
    ensures run[i].past.renewals[key] <= 1
  {
    RunIsRight(run, i);
    assert key in run[i].past.renewals ==> run[i].past.renewals[key] == 1;
  }

  /** While nothing has failed, a refresh token that completed a renewal stays marked
      used as long as its session lives, or a request in flight is bound to end that
      session. So no copy of it can pass for new. */
  lemma UsedTokensStayMarked(run: seq<Sys>, i: nat, key: Id)
    requires Run(run) && i < |run| && !run[i].past.faulty && key in run[i].past.renewals
    ensures var s := run[i];
            && key in s.past.owner
            && var sid := s.past.owner[key];
            || Stands(s, key) || sid !in s.store.sessions || exists r :: Due(s, r, sid)
  {
    RunIsRight(run, i);
    assert key in run[i].past.marked;
    assert Stands(run[i], key) || EndsSoon(run[i], run[i].past.marked[key]);
  }

  /** And only such a token is: what is kept as used was claimed for a renewal before, so
      a token never presented before is never taken for one. */
  lemma OnlyUsedTokensAreMarked(run: seq<Sys>, i: nat, key: Id)
    requires Run(run) && i < |run| && Stands(run[i], key)
    ensures key in run[i].past.marked && key in run[i].past.taken
  {
    RunIsRight(run, i);
    assert GrantOk(run[i].past, key, run[i].store.refresh[key]);
  }

  // After the end of a session.

  /** Of a session gone, no token is renewed and none exchanged. */
  lemma NothingAfterTheEndOnce(s: Sys, a: Action, t: Sys, sid: Id, key: Id)
    requires Sound(s) && Step(s, a, t) && Gone(s, sid) && OwnKey(s.past, sid, key)
    ensures t.past.exchanges[sid] == s.past.exchanges[sid] && t.past.renewals[key] == s.past.renewals[key]
  {
    if a.SaveRenewal? || a.SaveUse? || a.AcceptLooked? {
      assert RightAt(s, a.r);
      GoneAnswersNothing(s, a, t, sid, key);
    } else {
      OthersAnswerNothing(s, a, t);
    }
  }

  lemma GoneAnswersNothing(s: Sys, a: Action, t: Sys, sid: Id, key: Id)
    requires a.SaveRenewal? || a.SaveUse? || a.AcceptLooked?
    requires RightAt(s, a.r) && Step(s, a, t) && Gone(s, sid) && OwnKey(s.past, sid, key)
    ensures t.past.exchanges[sid] == s.past.exchanges[sid] && t.past.renewals[key] == s.past.renewals[key]
  {}

  lemma BeforeAnswersNothing(s: Sys, a: Action, t: Sys)
    requires IsConnecting(a) || IsRedeeming(a) || IsIssuing(a) || IsPresenting(a)
    requires Step(s, a, t)
    ensures t.past.exchanges == s.past.exchanges && t.past.renewals == s.past.renewals
  {}

  lemma OthersAnswerNothing(s: Sys, a: Action, t: Sys)
    requires Step(s, a, t) && !a.SaveRenewal? && !a.SaveUse? && !a.AcceptLooked?
    ensures t.past.exchanges == s.past.exchanges && t.past.renewals == s.past.renewals
  {
    if IsConnecting(a) || IsRedeeming(a) || IsIssuing(a) || IsPresenting(a) { BeforeAnswersNothing(s, a, t); }
  }

  lemma {:induction false} NothingAfterTheEnd(run: seq<Sys>, i: nat, j: nat, sid: Id, key: Id)
    requires Run(run) && i <= j < |run| && Gone(run[i], sid) && OwnKey(run[i].past, sid, key)
    ensures run[j].past.exchanges[sid] == run[i].past.exchanges[sid]
    ensures run[j].past.renewals[key] == run[i].past.renewals[key]
    decreases j
  {
    if i < j {
      NothingAfterTheEnd(run, i, j - 1, sid, key);
      EndedStaysEnded(run, i, j - 1, sid);
      RunIsRight(run, j - 1);
      assert NextAt(run, j - 1);
      var a :| Step(run[j - 1], a, run[j]);
      NothingAfterTheEndOnce(run[j - 1], a, run[j], sid, key);
    }
  }

  /** A refresh token marked used is presented again by its client: found as it is kept,
      or looked for in vain while another who presented it has it. */
  predicate PresentedAgain(s: Sys, r: nat, key: Id, clientID: string, t: Sys) {
    && key in s.past.marked
    && (PresentRefreshStep(s, r, key, clientID, t)
        || (PresentInVainStep(s, r, key, clientID, t) && key !in s.store.refresh))
  }

  /** Reuse ends the connection for good. A refresh token marked used is presented
      again, and some moment later no request is in flight and none has failed: the
      session is gone, and from then on no token of its chain is renewed and none of
      its tokens exchanged. */
  lemma ReuseEndsTheConnection(run: seq<Sys>, i: nat, j: nat, k: nat, r: nat, key: Id, clientID: string, other: Id)
    requires Run(run) && i < j <= k < |run|
    requires PresentedAgain(run[i], r, key, clientID, run[i + 1])
    requires run[j].reqs == map[] && !run[j].past.faulty
    requires OwnKey(run[j].past, run[i].past.marked[key], other)
    ensures var sid := run[i].past.marked[key];
            && Gone(run[k], sid)
            && run[k].past.exchanges[sid] == run[j].past.exchanges[sid]
            && run[k].past.renewals[other] == run[j].past.renewals[other]
  {
    var sid := run[i].past.marked[key];
    EndedStaysEnded(run, i + 1, j, sid);
    RunIsRight(run, j);
    assert sid in run[j].past.replayed && EndsSoon(run[j], sid);
    EndedStaysEnded(run, j, k, sid);
    NothingAfterTheEnd(run, j, k, sid, other);
  }

  // Finding a connection.

  /** The first line of an index named `name`, as findConnection walks it. */
  function FirstNamed(lines: seq<Connection>, name: Id): Option<Connection> {
    if lines == [] then None
    else if lines[0].id == name then Some(lines[0])
    else FirstNamed(lines[1..], name)
  }

  lemma {:induction false} FirstNamedIsIt(lines: seq<Connection>, c: Connection)
    requires c in lines
    requires forall d :: d in lines && d.id == c.id ==> d == c
    ensures FirstNamed(lines, c.id) == Some(c)
  {
    if lines[0].id != c.id { FirstNamedIsIt(lines[1..], c); }
  }

  /** Every live connection can be found: its app token answered and its session
      still stored, its public name leads to that session in its assistant's index,
      however the index is ordered, and the session is the one it was made as. */
  lemma LiveConnectionIsFound(run: seq<Sys>, i: nat, sid: Id, lines: seq<Connection>)
    requires Run(run) && i < |run|
    requires sid in run[i].past.answered && sid in run[i].store.sessions
    requires var m := MadeOf(run[i].store.sessions[sid]);
             forall c :: c in lines <==> c in Connections(run[i].store, IndexKey(m.tenant, m.assistant))
    ensures sid in run[i].past.connected && MadeOf(run[i].store.sessions[sid]) == run[i].past.connected[sid]
    ensures FirstNamed(lines, run[i].store.sessions[sid].sid)
            == Some(Connection(run[i].store.sessions[sid].sid, sid))
  {
    RunIsRight(run, i);
    var s := run[i];
    var m := s.past.connected[sid];
    assert IsMade(s.past, sid, MadeOf(s.store.sessions[sid])) && Listed(s, sid);
    var c := Connection(m.sid, sid);
    assert EntryOf(sid, m).1 == c && c in Connections(s.store, IndexKey(m.tenant, m.assistant));
    forall d | d in lines && d.id == m.sid ensures d == c {
      assert LineOk(s.past, (IndexKey(m.tenant, m.assistant), d),
                    s.store.index[(IndexKey(m.tenant, m.assistant), d)]);
      assert MadeOk(s.past, d.sessionID, s.past.connected[d.sessionID]) && MadeOk(s.past, sid, m);
    }
    FirstNamedIsIt(lines, c);
  }
}
