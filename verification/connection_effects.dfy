/** How each action keeps the invariant. An action's effect is described once, by
    what changes; what an effect of that shape keeps is proved once for all. */
module ConnectionEffects {
  import opened StoreModel
  import opened ConnectionMachine
  import opened ConnectionInvariant

  /** What has happened stays so. */
  ghost predicate Grows(p: Past, q: Past) {
    && p.used <= q.used && p.given <= q.given && p.taken <= q.taken && p.answered <= q.answered
    && p.replayed <= q.replayed && (p.faulty ==> q.faulty)
    && Extends(p.born, q.born) && Extends(p.owner, q.owner) && Extends(p.named, q.named)
    && Extends(p.connected, q.connected) && Extends(p.marked, q.marked)
  }

  /** The shape of an action's effect: only request r moves on, and to a place that
      is true of it; what the store gains is right, and no session comes back. */
  ghost predicate RequestEffect(s: Sys, t: Sys, r: nat) {
    && (forall o :: o in t.reqs && o != r ==> Same(s.reqs, t.reqs, o))
    && (forall k :: k in t.store.sessions ==> k in s.store.sessions || k !in s.past.born)
    && (r in t.reqs ==> RightAt(t, r))
  }

  predicate SessionGain(s: Sys, t: Sys, k: Id)
    requires k in t.store.sessions
  {
    || (Same(s.store.sessions, t.store.sessions, k) && (k in t.past.connected ==> k in s.past.connected))
    || (CopyOk(t.past, k, t.store.sessions[k])
        && (k in t.past.connected ==> IsMade(t.past, k, MadeOf(t.store.sessions[k]))))
  }

  ghost predicate StoreEffect(s: Sys, t: Sys) {
    && (forall k :: k in t.store.flows ==>
                      Same(s.store.flows, t.store.flows, k) || t.store.flows[k].value.sessionID in t.past.born)
    && (forall k :: k in t.store.codes ==>
                      Same(s.store.codes, t.store.codes, k) || t.store.codes[k].value.sessionID in t.past.born)
    && (forall k :: k in t.store.sessions ==> SessionGain(s, t, k))
    && (forall k :: k in t.store.refresh ==>
                      Same(s.store.refresh, t.store.refresh, k) || GrantOk(t.past, k, t.store.refresh[k]))
    && (forall k :: k in t.store.index ==>
                      Same(s.store.index, t.store.index, k) || LineOk(t.past, k, t.store.index[k]))
  }

  lemma RequestStays(p: Past, p': Past, q: Request)
    requires Grows(p, p') && RequestOk(p, q)
    ensures RequestOk(p', q)
  {}

  lemma EffectKeepsRequests(s: Sys, t: Sys, r: nat)
    requires RequestsOk(s) && Grows(s.past, t.past) && RequestEffect(s, t, r)
    ensures RequestsOk(t)
  {
    forall o | o in t.reqs ensures RightAt(t, o) {
      if o != r {
        assert Same(s.reqs, t.reqs, o) && RightAt(s, o);
        RequestStays(s.past, t.past, s.reqs[o]);
      }
    }
  }

  lemma EffectKeepsStore(s: Sys, t: Sys)
    requires StoreOk(s) && SessionsMade(s) && Grows(s.past, t.past) && StoreEffect(s, t)
    ensures StoreOk(t) && SessionsMade(t)
  {}

  // Credentials

  /** No credential is gained, and none on the way becomes a connected session's. */
  ghost predicate OnlyLoses(s: Sys, t: Sys, r: nat) {
    && (forall k :: k in t.store.flows ==> Same(s.store.flows, t.store.flows, k))
    && (forall k :: k in t.store.codes ==> Same(s.store.codes, t.store.codes, k))
    && (forall k :: Unrotated(t, k) ==> Same(s.store.refresh, t.store.refresh, k))
    && (forall o :: o in t.reqs && o != r ==> Same(s.reqs, t.reqs, o))
    && (r in t.reqs && (Pre(t.reqs[r].pc) || Spent(t.reqs[r].pc)) ==>
          && r in s.reqs && s.reqs[r].sid == t.reqs[r].sid
          && (Pre(t.reqs[r].pc) ==> Pre(s.reqs[r].pc)) && (Spent(t.reqs[r].pc) ==> Spent(s.reqs[r].pc)))
    && t.past.connected == s.past.connected
  }

  /** Credential c of session sid gives way to d; with `pre`, on the way too. */
  ghost predicate Moves(s: Sys, t: Sys, c: Credential, d: Credential, sid: Id, pre: bool) {
    && (forall e, x, p :: Holds(t, e, x, p) ==>
          || (Holds(s, e, x, p) && (e != c || (p && !pre)))
          || (e == d && x == sid && Holds(s, c, sid, p) && (p ==> pre)))
    && t.past.connected == s.past.connected
  }

  lemma LosingKeepsLinear(s: Sys, t: Sys, r: nat)
    requires Linear(s) && OnlyLoses(s, t, r)
    ensures Linear(t)
  {
    assert forall o :: o in t.reqs && o != r ==> Same(s.reqs, t.reqs, o);
    forall c, sid, pre | Holds(t, c, sid, pre) ensures Holds(s, c, sid, pre) {}
  }

  lemma MovingKeepsLinear(s: Sys, t: Sys, c: Credential, d: Credential, sid: Id, pre: bool)
    requires Linear(s) && Moves(s, t, c, d, sid, pre)
    ensures Linear(t)
  {}

  // Claims

  /** No token is claimed, answered for, or made claimable again. */
  ghost predicate ClaimsNothing(s: Sys, t: Sys, r: nat) {
    && t.past.taken == s.past.taken && t.past.renewals == s.past.renewals
    && (forall k :: Unrotated(t, k) ==> Unrotated(s, k) || k !in s.past.taken)
    && (forall o :: o in t.reqs && o != r ==> Same(s.reqs, t.reqs, o))
    && (r in t.reqs && Claimed(t.reqs[r].pc) ==> ClaimedBy(s, r, t.reqs[r].key))
  }

  lemma ClaimingNothingKeepsClaims(s: Sys, t: Sys, r: nat)
    requires Claims(s) && ClaimsNothing(s, t, r)
    ensures Claims(t)
  {
    forall o, key | ClaimedBy(t, o, key) ensures ClaimedBy(s, o, key) {
      if o != r { assert Same(s.reqs, t.reqs, o); }
    }
  }

  // The index

  /** A line leaves the index only when its session is gone, and no connection is
      answered or made. */
  ghost predicate KeepsLines(s: Sys, t: Sys) {
    && t.past.answered == s.past.answered && t.past.connected == s.past.connected
    && (forall e :: e in s.store.index ==> e in t.store.index || e.1.sessionID !in t.store.sessions)
    && (forall k :: k in t.store.sessions ==> k in s.store.sessions || k !in s.past.born)
  }

  lemma KeepingLinesKeepsFound(s: Sys, t: Sys)
    requires PastOk(s.past) && Found(s) && KeepsLines(s, t)
    ensures Found(t)
  {
    forall sid | sid in t.past.answered && sid in t.store.sessions && sid in t.past.connected ensures Listed(t, sid) {
      assert Listed(s, sid);
    }
  }

  // Marks

  /** A request bound to end a session stays so until it is gone, and no mark is
      lost but to such a request or a session gone. */
  ghost predicate KeepsMarks(s: Sys, t: Sys, r: nat) {
    && t.past.marked == s.past.marked && t.past.replayed == s.past.replayed
    && (s.past.faulty ==> t.past.faulty)
    && (forall k :: k in t.store.sessions ==> k in s.store.sessions || k !in s.past.born)
    && (forall o :: o in s.reqs && o != r ==> Same(s.reqs, t.reqs, o))
    && (forall sid :: Due(s, r, sid) && !t.past.faulty ==> Due(t, r, sid) || sid !in t.store.sessions)
    && (forall k :: k in s.past.marked && Stands(s, k) && !t.past.faulty ==>
                      Stands(t, k) || s.past.marked[k] !in t.store.sessions || Due(t, r, s.past.marked[k]))
  }

  lemma EndsSoonStays(s: Sys, t: Sys, r: nat, sid: Id)
    requires KeepsMarks(s, t, r) && sid in s.past.born && EndsSoon(s, sid) && !t.past.faulty
    ensures EndsSoon(t, sid)
  {
    if sid in s.store.sessions {
      var o :| Due(s, o, sid);
      assert Due(t, o, sid) || sid !in t.store.sessions by {
        if o != r { assert Same(s.reqs, t.reqs, o); }
      }
    }
  }

  lemma KeepingMarksKeepsMarks(s: Sys, t: Sys, r: nat)
    requires PastOk(s.past) && Marks(s) && KeepsMarks(s, t, r)
    ensures Marks(t)
  {
    if !t.past.faulty {
      forall k | k in t.past.marked ensures Stands(t, k) || EndsSoon(t, t.past.marked[k]) {
        if !Stands(s, k) { EndsSoonStays(s, t, r, s.past.marked[k]); }
      }
      forall sid | sid in t.past.replayed ensures EndsSoon(t, sid) { EndsSoonStays(s, t, r, sid); }
    }
  }

  // What every action leaves right.

  ghost predicate Onward(s: Sys, t: Sys) {
    Grows(s.past, t.past) && Ids(t) && PastOk(t.past)
  }

  ghost predicate Right(s: Sys, t: Sys, r: nat) {
    Onward(s, t) && RequestEffect(s, t, r) && StoreEffect(s, t)
  }

  /** What an action may rely on: the request it moves on, and what its load
      answers; with what has happened. */
  ghost predicate Local(s: Sys, r: nat) {
    Ids(s) && PastOk(s.past) && Here(s, r)
  }
}
