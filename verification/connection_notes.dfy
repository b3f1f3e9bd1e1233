/** What a note of use may write back: exactly when it leaves a session's refresh key as
    it was, and a run in which it takes an older one back. */
module ConnectionNotes {
  import opened StoreModel
  import opened ConnectionMachine
  import opened ConnectionInvariant
  import opened ConnectionEffects

  // Writes over a session, which may move its refresh key.
  predicate Writes(a: Action) {
    a.SaveChoice? || a.SaveConnection? || a.SaveRenewal? || a.SaveUse?
  }

  predicate KeyStays(s: Sys, t: Sys, sid: Id) {
    sid in s.store.sessions && sid in t.store.sessions ==>
      t.store.sessions[sid].refreshKey == s.store.sessions[sid].refreshKey
  }

  lemma OthersKeepTheKey(s: Sys, a: Action, t: Sys, sid: Id)
    requires IsConnecting(a) || IsRedeeming(a) || IsIssuing(a)
    requires Step(s, a, t) && !Writes(a) && sid in s.past.used
    ensures KeyStays(s, t, sid)
  {}

  lemma RestKeepsTheKey(s: Sys, a: Action, t: Sys, sid: Id)
    requires !IsConnecting(a) && !IsRedeeming(a) && !IsIssuing(a)
    requires Step(s, a, t) && !Writes(a)
    ensures KeyStays(s, t, sid)
  {}

  lemma BeforeTheConnection(s: Sys, r: nat, sid: Id)
    requires Linear(s) && r in s.reqs && Pre(s.reqs[r].pc) && sid in s.past.connected
    ensures s.reqs[r].sid != sid
  {
    assert Holds(s, Held(r), s.reqs[r].sid, true);
  }

  /** A connection's refresh key moves only as a renewal is saved, or a note of use made
      on a copy that no longer has it. */
  lemma KeyMovesOnlySo(s: Sys, a: Action, t: Sys, sid: Id)
    requires Ids(s) && Linear(s) && Step(s, a, t) && sid in s.past.connected && sid in s.past.born
    ensures KeyStays(s, t, sid)
            || (a.SaveRenewal? && s.reqs[a.r].sid == sid)
            || (a.SaveUse? && s.reqs[a.r].sid == sid
                && s.reqs[a.r].sess.refreshKey != s.store.sessions[sid].refreshKey)
  {
    if !Writes(a) {
      if IsConnecting(a) || IsRedeeming(a) || IsIssuing(a) {
        OthersKeepTheKey(s, a, t, sid);
      } else {
        RestKeepsTheKey(s, a, t, sid);
      }
    } else if a.SaveChoice? || a.SaveConnection? {
      BeforeTheConnection(s, a.r, sid);
    }
  }

  /** And a note that is saved leaves it as it was exactly when its copy still has it. */
  lemma NoteKeepsTheKey(s: Sys, r: nat, t: Sys)
    requires SaveUseStep(s, r, t) && s.reqs[r].sid in s.store.sessions && s.now < s.reqs[r].sess.expiresAt
    ensures var sid := s.reqs[r].sid;
            && sid in t.store.sessions
            && (t.store.sessions[sid].refreshKey == s.store.sessions[sid].refreshKey <==>
                s.reqs[r].sess.refreshKey == s.store.sessions[sid].refreshKey)
  {}

  // A run in which it does not.

  const END: Time := 1_000_001
  const BOXES: seq<string> := ["notes/page:read"]
  const INDEX := IndexKey("acme", "helper")
  const LINE := Connection(6, 1)
  const ASK := Exchange("anna", "app")

  function Last(run: seq<Sys>): Sys
    requires run != []
  {
    run[|run| - 1]
  }

  lemma Extend(run: seq<Sys>, a: Action, t: Sys) returns (longer: seq<Sys>)
    requires Run(run) && Step(Last(run), a, t)
    ensures Run(longer) && Last(longer) == t
  {
    longer := run + [t];
    forall i: nat | i + 1 < |longer| ensures NextAt(longer, i) {
      if i + 1 < |run| { assert NextAt(run, i); } else { assert Next(Last(run), t); }
    }
  }

  // The session as it is signed in, chosen for, and connected.
  const SIGNED := NO_SESSION.(subject := "anna", sid := 2, expiresAt := END)
  const CHOSEN := SIGNED.(clientID := "app", tenant := "acme", assistant := "helper", appScopes := BOXES)
  const CONNECTED := CHOSEN.(refreshKey := 5, sid := 6)

  function Ours(pc: PC): Request {
    Begin(pc, 1).(clientID := "app", scopes := BOXES)
  }

  // Where the run has come to: nothing marked yet, and these values drawn.
  ghost predicate Reaches(run: seq<Sys>, now: Time, reqs: map<nat, Request>, store: State, used: set<Id>) {
    && Run(run) && Last(run).now == now && Last(run).reqs == reqs && Last(run).store == store
    && Last(run).past.used == used && Last(run).past.marked == map[]
  }

  const SIGNED_IN := EMPTY.(sessions := map[1 := SIGNED])

  lemma SignedInTo() returns (run: seq<Sys>)
    ensures Reaches(run, 1, map[0 := Ours(SavingTicket)], SIGNED_IN, {0, 1, 2})
  {
    var s := START.(reqs := map[0 := Ours(SavingTicket)], store := SIGNED_IN,
                    past := START.past.(used := {0, 1, 2}, named := map[2 := 1], born := map[1 := Birth("anna", END)]));
    run := Extend([START], SignIn(0, 1, 2, "anna", "app", BOXES, 1_000_000), s);
  }

  lemma TicketSpent() returns (run: seq<Sys>)
    ensures Reaches(run, 1, map[0 := Ours(Choosing)], SIGNED_IN, {0, 1, 2, 3})
  {
    run := SignedInTo();
    var s := Last(run);
    var t := s.(reqs := map[], past := s.past.(used := {0, 1, 2, 3}),
                store := SIGNED_IN.(flows := map[3 := Timed(Flow(1, "app", "", BOXES), 1 + FLOW_TTL)]));
    assert Remove(s.reqs, 0) == map[];
    run := Extend(run, SaveTicket(0, 3), t);
    assert Remove(t.store.flows, 3) == map[];
    run := Extend(run, SpendTicket(0, 3), t.(reqs := map[0 := Ours(Choosing)], store := SIGNED_IN));
  }

  const CHOSEN_FOR := EMPTY.(sessions := map[1 := CHOSEN])

  function Coding(): Request {
    Ours(SavingCode).(tenant := "acme", assistant := "helper", sess := SIGNED)
  }

  lemma ChosenTo() returns (run: seq<Sys>)
    ensures Reaches(run, 1, map[0 := Coding()], CHOSEN_FOR, {0, 1, 2, 3})
  {
    run := TicketSpent();
    var s := Last(run).(reqs := map[0 := Ours(Chosen).(sess := SIGNED)]);
    run := Extend(run, LoadForChoice(0), s);
    run := Extend(run, SaveChoice(0, "acme", "helper"), s.(reqs := map[0 := Coding()], store := CHOSEN_FOR));
  }

  function Redeem(pc: PC): Request {
    Begin(pc, 1).(clientID := "app", assistant := "helper")
  }

  lemma CodeSpent() returns (run: seq<Sys>)
    ensures Reaches(run, 1, map[0 := Redeem(Redeeming)], CHOSEN_FOR, {0, 1, 2, 3, 4})
  {
    run := ChosenTo();
    var s := Last(run);
    var code := AppCode(1, "app", "acme", "helper", BOXES);
    var t := s.(reqs := map[], past := s.past.(used := {0, 1, 2, 3, 4}),
                store := CHOSEN_FOR.(codes := map[4 := Timed(code, 1 + APP_CODE_TTL)]));
    assert Remove(s.reqs, 0) == map[];
    run := Extend(run, ConnectionMachine.SaveCode(0, 4), t);
    assert Remove(t.store.codes, 4) == map[];
    run := Extend(run, SpendCode(0, 4, "app"), t.(reqs := map[0 := Redeem(Redeeming)], store := CHOSEN_FOR));
  }

  function Grant(rotated: bool): Timed<RefreshGrant> {
    Timed(RefreshGrant(1, "app", rotated), END)
  }

  lemma RedeemedTo() returns (run: seq<Sys>)
    ensures Reaches(run, 1, map[0 := Redeem(Redeemed).(sess := CHOSEN)], CHOSEN_FOR, {0, 1, 2, 3, 4})
  {
    run := CodeSpent();
    run := Extend(run, LoadForCode(0), Last(run).(reqs := map[0 := Redeem(Redeemed).(sess := CHOSEN)]));
  }

  lemma FirstGrantSaved() returns (run: seq<Sys>)
    ensures Reaches(run, 1, map[0 := Redeem(SavingConnection).(sess := CONNECTED)],
                    CHOSEN_FOR.(refresh := map[5 := Grant(false)]), {0, 1, 2, 3, 4, 5, 6})
  {
    run := RedeemedTo();
    var s := Last(run);
    var past := s.past.(used := {0, 1, 2, 3, 4, 5, 6}, owner := s.past.owner[5 := 1], named := s.past.named[6 := 1]);
    run := Extend(run, SaveFirstGrant(0, 5, 6),
                  s.(reqs := map[0 := Redeem(SavingConnection).(sess := CONNECTED)],
                     store := CHOSEN_FOR.(refresh := map[5 := Grant(false)]), past := past));
  }

  // A connection's store: its session, its line and these refresh grants.
  function Holding(sess: Session, grants: map<Id, Timed<RefreshGrant>>): State {
    EMPTY.(sessions := map[1 := sess], refresh := grants, index := map[(INDEX, LINE) := END])
  }

  lemma ConnectedTo() returns (run: seq<Sys>)
    ensures Reaches(run, 1, map[], Holding(CONNECTED, map[5 := Grant(false)]), {0, 1, 2, 3, 4, 5, 6})
    ensures 5 in Last(run).past.given
  {
    run := FirstGrantSaved();
    var s := Last(run);
    var t := s.(reqs := map[0 := Redeem(Indexing).(sess := CONNECTED)],
                store := s.store.(sessions := map[1 := CONNECTED]),
                past := s.past.(connected := s.past.connected[1 := MadeOf(CONNECTED)]));
    run := Extend(run, SaveConnection(0), t);
    assert Remove(t.reqs, 0) == map[];
    run := Extend(run, IndexConnection(0),
                  t.(reqs := map[], store := Holding(CONNECTED, map[5 := Grant(false)]),
                     past := t.past.(given := t.past.given + {5}, answered := t.past.answered + {1})));
  }

  const NOW: Time := 1 + USED_EVERY
  const USED := CONNECTED.(lastUsed := NOW)

  // An exchange of the app's token has loaded the session and is to note its use.
  function Noting(): Request {
    Begin(SavingUse, 1).(tenant := "acme", assistant := "helper", name := 6, purpose := ASK, sess := USED)
  }

  lemma LookedTo() returns (run: seq<Sys>)
    ensures Reaches(run, NOW, map[0 := Noting().(pc := Looking, sess := NO_SESSION)],
                    Holding(CONNECTED, map[5 := Grant(false)]), {0, 1, 2, 3, 4, 5, 6})
    ensures 5 in Last(run).past.given
  {
    run := ConnectedTo();
    var s := Last(run);
    assert Age(s.store, NOW) == s.store;
    run := Extend(run, Tick(NOW), s.(now := NOW));
    assert (INDEX, LINE) in s.store.index && LINE in Connections(s.store, INDEX);
    run := Extend(run, Look(0, INDEX, LINE, ASK),
                  s.(now := NOW, reqs := map[0 := Noting().(pc := Looking, sess := NO_SESSION)]));
  }

  // Meanwhile the app renews.
  function Renewal(pc: PC): Request {
    Begin(pc, 1).(clientID := "app", key := 5)
  }

  lemma PresentedTo() returns (run: seq<Sys>)
    ensures Reaches(run, NOW, map[0 := Noting(), 1 := Renewal(Renewing)],
                    Holding(CONNECTED, map[5 := Grant(false)]), {0, 1, 2, 3, 4, 5, 6})
  {
    run := LookedTo();
    var s := Last(run).(reqs := map[0 := Noting()]);
    run := Extend(run, AcceptLooked(0), s);
    assert Replays(s.past, 5) == s.past;
    run := Extend(run, PresentRefresh(1, 5, "app"), s.(reqs := map[0 := Noting(), 1 := Renewal(Renewing)]));
  }

  lemma LoadedTo() returns (run: seq<Sys>)
    ensures Reaches(run, NOW, map[0 := Noting(), 1 := Renewal(PC.Renewal).(sess := CONNECTED)],
                    Holding(CONNECTED, map[5 := Grant(false)]), {0, 1, 2, 3, 4, 5, 6})
  {
    run := PresentedTo();
    run := Extend(run, LoadForRenewal(1),
                  Last(run).(reqs := map[0 := Noting(), 1 := Renewal(PC.Renewal).(sess := CONNECTED)]));
  }

  lemma ClaimedTo() returns (run: seq<Sys>)
    ensures Reaches(run, NOW, map[0 := Noting(), 1 := Renewal(SavingNext).(sess := CONNECTED)],
                    Holding(CONNECTED, map[]), {0, 1, 2, 3, 4, 5, 6})
  {
    run := LoadedTo();
    var s := Last(run);
    assert Remove(s.store.refresh, 5) == map[];
    run := Extend(run, Claim(1),
                  s.(reqs := map[0 := Noting(), 1 := Renewal(SavingNext).(sess := CONNECTED)],
                     store := Holding(CONNECTED, map[]), past := s.past.(taken := s.past.taken + {5})));
  }

  lemma NextSaved() returns (run: seq<Sys>)
    ensures Reaches(run, NOW, map[0 := Noting(), 1 := Renewal(Marking).(next := 7, sess := CONNECTED)],
                    Holding(CONNECTED, map[7 := Grant(false)]), {0, 1, 2, 3, 4, 5, 6, 7})
  {
    run := ClaimedTo();
    var s := Last(run);
    run := Extend(run, SaveNext(1, 7),
                  s.(reqs := map[0 := Noting(), 1 := Renewal(Marking).(next := 7, sess := CONNECTED)],
                     store := Holding(CONNECTED, map[7 := Grant(false)]),
                     past := s.past.(used := {0, 1, 2, 3, 4, 5, 6, 7}, owner := s.past.owner[7 := 1])));
  }

  // The token presented is kept, marked, beside the next.
  const BOTH: map<Id, Timed<RefreshGrant>> := map[7 := Grant(false), 5 := Grant(true)]

  lemma MarkedTo() returns (run: seq<Sys>)
    ensures Run(run) && Last(run).now == NOW && Last(run).store == Holding(CONNECTED, BOTH)
    ensures Last(run).reqs
            == map[0 := Noting(), 1 := Renewal(SavingRenewal).(next := 7, sess := CONNECTED.(refreshKey := 7))]
  {
    run := NextSaved();
    var s := Last(run);
    var q := Renewal(SavingRenewal).(next := 7, sess := CONNECTED.(refreshKey := 7));
    run := Extend(run, Mark(1), s.(reqs := map[0 := Noting(), 1 := q], store := Holding(CONNECTED, BOTH),
                                   past := s.past.(marked := s.past.marked[5 := 1])));
  }

  lemma RenewedTo() returns (run: seq<Sys>)
    ensures Run(run) && Last(run).now == NOW && Last(run).reqs == map[0 := Noting()]
    ensures Last(run).store == Holding(CONNECTED.(refreshKey := 7), BOTH)
  {
    run := MarkedTo();
    var t := Last(run);
    assert Remove(t.reqs, 1) == map[0 := Noting()];
    run := Extend(run, SaveRenewal(1),
                  t.(reqs := map[0 := Noting()], store := Holding(CONNECTED.(refreshKey := 7), BOTH),
                     past := t.past.(given := t.past.given + {7}, renewals := t.past.renewals + multiset{5})));
  }

  /** An exchange loads a connection's session to note its use; the app renews
      meanwhile; and the note puts the used token's key back: the session then names a
      token marked used, and not the one that renews next. */
  lemma NotePutsOldKeyBack() returns (run: seq<Sys>)
    ensures Run(run) && Last(run).reqs == map[]
    ensures 1 in Last(run).store.sessions && Last(run).store.sessions[1].refreshKey == 5
    ensures Stands(Last(run), 5) && Unrotated(Last(run), 7) && Last(run).store.refresh[7].value.sessionID == 1
  {
    run := RenewedTo();
    var s := Last(run);
    assert Remove(s.reqs, 0) == map[];
    run := Extend(run, SaveUse(0),
                  s.(reqs := map[], store := s.store.(sessions := map[1 := USED]),
                     past := s.past.(exchanges := s.past.exchanges + multiset{1})));
  }
}
