/** Who comes to know of an app session, and that what was recorded where no sign-out
    looks stays out of reach. */
module SharedReach {
  import opened StoreModel
  import opened SharedWays
  import opened Memberships
  import opened SharedMachine
  import opened SharedInvariant
  import opened SharedEffects

  lemma BeginningTellsFew(s: Sys, a: Action, t: Sys)
    requires a.Tick? || a.BeginSilent? || a.BeginSignIn?
    requires Step(s, a, t) && (Actor(a) in s.reqs ==> RightAt(s, Actor(a)))
    ensures TellsFew(s, t, Actor(a))
  {}

  lemma JoiningTellsFew(s: Sys, a: Action, t: Sys)
    requires a.Join? || a.MakeShared? || a.SaveCode?
    requires RightAt(s, a.r) && Step(s, a, t)
    ensures TellsFew(s, t, a.r)
  {}

  lemma EndingTellsFew(s: Sys, a: Action, t: Sys)
    requires a.PickEnd? || a.EndGrant? || a.EndOver?
    requires RightAt(s, a.r) && Step(s, a, t)
    ensures TellsFew(s, t, a.r)
  {}

  lemma LeavingTellsFew(s: Sys, a: Action, t: Sys)
    requires a.Logout? || a.Crash?
    requires Step(s, a, t) && (Actor(a) in s.reqs ==> RightAt(s, Actor(a)))
    ensures TellsFew(s, t, Actor(a))
  {}

  lemma CodeTellsFew(s: Sys, a: Action, t: Sys)
    requires a.SpendCode? || a.LoadForCode?
    requires Step(s, a, t) && (Actor(a) in s.reqs ==> RightAt(s, Actor(a)))
    ensures TellsFew(s, t, Actor(a))
  {}

  lemma GrantTellsFew(s: Sys, r: nat, key: Id, asked: seq<Membership>, hint: string, baseline: seq<string>, t: Sys)
    requires RightAt(s, r) && SaveGrantStep(s, r, key, asked, hint, baseline, t)
    ensures TellsFew(s, t, r)
  {}

  lemma BindingTellsFew(s: Sys, r: nat, t: Sys)
    requires RightAt(s, r) && SaveBindingStep(s, r, t)
    ensures TellsFew(s, t, r)
  {}

  lemma RefreshTellsFew(s: Sys, a: Action, t: Sys)
    requires a.PresentRefresh? || a.Refuse?
    requires Step(s, a, t) && (Actor(a) in s.reqs ==> RightAt(s, Actor(a)))
    ensures TellsFew(s, t, Actor(a))
  {}

  lemma RenewTellsFew(s: Sys, r: nat, asked: seq<Membership>, baseline: seq<string>, t: Sys)
    requires RightAt(s, r) && RenewStep(s, r, asked, baseline, t)
    ensures TellsFew(s, t, r)
  {}

  lemma RevokingTellsFew(s: Sys, a: Action, t: Sys)
    requires a.PresentRevoke? || a.LoadForRevoke?
    requires Step(s, a, t) && (Actor(a) in s.reqs ==> RightAt(s, Actor(a)))
    ensures TellsFew(s, t, Actor(a))
  {}

  lemma RevokedTellsFew(s: Sys, a: Action, t: Sys)
    requires a.RevokeSession? || a.RevokeGrant?
    requires Step(s, a, t) && (Actor(a) in s.reqs ==> RightAt(s, Actor(a)))
    ensures TellsFew(s, t, Actor(a))
  {}

  lemma CreateTellsFew(s: Sys, r: nat, sid: Id, t: Sys)
    requires Ids(s) && Lists(s) && RightAt(s, r) && CreateStep(s, r, sid, t)
    ensures TellsFew(s, t, r)
  {}

  lemma ListedTellsFew(s: Sys, r: nat, t: Sys)
    requires Ids(s) && Lists(s) && RightAt(s, r) && At(s, r, Recording) && ListedStep(s, r, t)
    ensures TellsFew(s, t, r)
  {}

  lemma UnlistedTellsFew(s: Sys, r: nat, t: Sys)
    requires RightAt(s, r) && At(s, r, Recording) && UnlistedStep(s, r, t)
    ensures TellsFew(s, t, r)
  {}

  lemma CheckTellsFew(s: Sys, r: nat, t: Sys)
    requires RightAt(s, r) && CheckStep(s, r, t)
    ensures TellsFew(s, t, r)
  {}

  lemma DropTellsFew(s: Sys, r: nat, t: Sys)
    requires RightAt(s, r) && EndedGone(s) && DropStep(s, r, t)
    ensures TellsFew(s, t, r)
  {}

  lemma TakeTellsFew(s: Sys, r: nat, t: Sys)
    requires RightAt(s, r) && Lists(s) && TakeStep(s, r, t)
    ensures TellsFew(s, t, r)
  {}

  lemma EndSessionTellsFew(s: Sys, r: nat, t: Sys)
    requires RightAt(s, r) && EndSessionStep(s, r, t)
    ensures TellsFew(s, t, r)
  {}

  lemma FalterTellsFew(s: Sys, r: nat, t: Sys)
    requires RightAt(s, r) && FalterStep(s, r, t)
    ensures TellsFew(s, t, r)
  {}

  lemma SigningTellsFew(s: Sys, a: Action, t: Sys)
    requires a.Create? || a.Record? || a.Check? || a.Falter?
    requires Ids(s) && Lists(s) && RightAt(s, a.r) && Step(s, a, t)
    ensures TellsFew(s, t, a.r)
  {
    if a.Create? {
      CreateTellsFew(s, a.r, a.drawn, t);
    } else if a.Check? {
      CheckTellsFew(s, a.r, t);
    } else if a.Falter? {
      FalterTellsFew(s, a.r, t);
    } else if s.now < s.reqs[a.r].record.expiresAt {
      ListedTellsFew(s, a.r, t);
    } else {
      UnlistedTellsFew(s, a.r, t);
    }
  }

  lemma EndsTellFew(s: Sys, a: Action, t: Sys)
    requires a.Drop? || a.Take? || a.EndSession?
    requires Lists(s) && EndedGone(s) && RightAt(s, a.r) && Step(s, a, t)
    ensures TellsFew(s, t, a.r)
  {
    if a.Drop? {
      DropTellsFew(s, a.r, t);
    } else if a.Take? {
      TakeTellsFew(s, a.r, t);
    } else {
      EndSessionTellsFew(s, a.r, t);
    }
  }

  lemma AnswersTellFew(s: Sys, a: Action, t: Sys)
    requires a.SaveGrant? || a.SaveBinding? || a.Renew?
    requires RightAt(s, a.r) && Step(s, a, t)
    ensures TellsFew(s, t, a.r)
  {
    if a.SaveGrant? {
      GrantTellsFew(s, a.r, a.drawn, a.asked, a.hint, a.baseline, t);
    } else if a.SaveBinding? {
      BindingTellsFew(s, a.r, t);
    } else {
      RenewTellsFew(s, a.r, a.asked, a.baseline, t);
    }
  }

  lemma FirstTellsFew(s: Sys, a: Action, t: Sys)
    requires Begins(a) || SignsIn(a)
    requires Sound(s) && Step(s, a, t) && (Actor(a) in s.reqs ==> RightAt(s, Actor(a)))
    ensures TellsFew(s, t, Actor(a))
  {
    if a.Create? || a.Record? || a.Check? {
      SigningTellsFew(s, a, t);
    } else if a.Join? || a.MakeShared? || a.SaveCode? {
      JoiningTellsFew(s, a, t);
    } else {
      BeginningTellsFew(s, a, t);
    }
  }

  lemma LastTellsFew(s: Sys, a: Action, t: Sys)
    requires EndsShared(a) || EndsApps(a)
    requires Sound(s) && Step(s, a, t) && (Actor(a) in s.reqs ==> RightAt(s, Actor(a)))
    ensures TellsFew(s, t, Actor(a))
  {
    if a.Drop? || a.Take? || a.EndSession? {
      EndsTellFew(s, a, t);
    } else if a.Logout? {
      LeavingTellsFew(s, a, t);
    } else {
      EndingTellsFew(s, a, t);
    }
  }

  lemma OthersTellFew(s: Sys, a: Action, t: Sys)
    requires !Begins(a) && !SignsIn(a) && !EndsShared(a) && !EndsApps(a)
    requires Sound(s) && Step(s, a, t) && (Actor(a) in s.reqs ==> RightAt(s, Actor(a)))
    ensures TellsFew(s, t, Actor(a))
  {
    if a.Falter? {
      SigningTellsFew(s, a, t);
    } else if a.SaveGrant? || a.SaveBinding? || a.Renew? {
      AnswersTellFew(s, a, t);
    } else if a.SpendCode? || a.LoadForCode? {
      CodeTellsFew(s, a, t);
    } else if a.PresentRefresh? || a.Refuse? {
      RefreshTellsFew(s, a, t);
    } else if a.PresentRevoke? || a.LoadForRevoke? {
      RevokingTellsFew(s, a, t);
    } else if a.RevokeSession? || a.RevokeGrant? {
      RevokedTellsFew(s, a, t);
    } else {
      LeavingTellsFew(s, a, t);
    }
  }

  lemma StepTellsFew(s: Sys, a: Action, t: Sys)
    requires Sound(s) && Step(s, a, t)
    ensures TellsFew(s, t, Actor(a))
  {
    if Actor(a) in s.reqs { assert RightAt(s, Actor(a)); }
    if Begins(a) || SignsIn(a) {
      FirstTellsFew(s, a, t);
    } else if EndsShared(a) || EndsApps(a) {
      LastTellsFew(s, a, t);
    } else {
      OthersTellFew(s, a, t);
    }
  }

  // A session not yet recorded

  lemma UnrecordedStays(s: Sys, t: Sys, r: nat, o: nat)
    requires RequestsOk(s) && Linear(s) && TellsFew(s, t, r) && ToRecord(s, o) && !Known(s, s.reqs[o].sid)
    requires forall p :: p in t.reqs && p != r ==> Same(s.reqs, t.reqs, p)
    requires ToRecord(t, o) && t.reqs[o] == s.reqs[o]
    ensures !Known(t, t.reqs[o].sid)
  {
    var sid := s.reqs[o].sid;
    assert RightAt(s, o) && Holds(s, Held(o), sid);
    if p :| Owes(t, p, sid) { assert p != r ==> Owes(s, p, sid); }
    if r in s.reqs && Makes(s.reqs[r]) && s.reqs[r].sid == sid { assert Holds(s, Held(r), sid); }
  }

  lemma NewIsUnknown(s: Sys, t: Sys, r: nat, sid: Id)
    requires Lists(s) && RequestsOk(s) && TellsFew(s, t, r) && sid !in s.past.born
    requires forall p :: p in t.reqs && p != r ==> Same(s.reqs, t.reqs, p)
    ensures !Known(t, sid)
  {
    forall p | p in s.reqs ensures sid !in s.reqs[p].ending && !Own(s, t, p, sid) { assert RightAt(s, p); }
  }

  lemma UnrecordedKept(s: Sys, a: Action, t: Sys)
    requires Sound(s) && Judged(s) && Step(s, a, t) && RequestEffect(s, t, Actor(a))
    ensures forall o :: ToRecord(t, o) ==> !Known(t, t.reqs[o].sid)
  {
    StepTellsFew(s, a, t);
    forall o | ToRecord(t, o) ensures !Known(t, t.reqs[o].sid) {
      if o in s.reqs && t.reqs[o] == s.reqs[o] {
        UnrecordedStays(s, t, Actor(a), o);
      } else {
        NewIsUnknown(s, t, Actor(a), t.reqs[o].sid);
      }
    }
  }

  // A session recorded where no sign-out looks

  lemma OutOfReachStays(s: Sys, t: Sys, r: nat, sid: Id)
    requires RequestsOk(s) && Grows(s.past, t.past) && TellsFew(s, t, r) && OutOfReach(s, sid)
    requires forall p :: p in t.reqs && p != r ==> Same(s.reqs, t.reqs, p)
    ensures OutOfReach(t, sid)
  {
    var b := s.past.born[sid];
    forall o ensures !Takes(t, o, b.shared) {
      assert !Takes(s, o, b.shared);
    }
    forall o | Owes(t, o, sid) ensures Replaces(t.reqs[o], b) {
      if o != r { assert Owes(s, o, sid); } else { assert RightAt(s, r); }
    }
  }

  lemma NowOutOfReach(s: Sys, r: nat, t: Sys)
    requires RightAt(s, r) && Grows(s.past, t.past) && At(s, r, Recording) && ListedStep(s, r, t)
    requires !Known(s, s.reqs[r].sid) && NowMissed(s, s.reqs[r]) != {}
    ensures OutOfReach(t, s.reqs[r].sid)
  {
    var q := s.reqs[r];
    forall o ensures !Takes(t, o, q.shared) { assert o != r && Takes(t, o, q.shared) ==> Takes(s, o, q.shared); }
    forall o ensures !Owes(t, o, q.sid) { assert !Owes(s, o, q.sid); }
  }

  lemma MissedAsItWas(s: Sys, a: Action, t: Sys)
    requires Begins(a) || SignsIn(a) || EndsShared(a) || EndsApps(a)
    requires Step(s, a, t) && !a.Record?
    ensures t.past.missed == s.past.missed
  {}

  lemma MissedIsNoted(s: Sys, a: Action, t: Sys)
    requires Step(s, a, t) && !a.Record?
    ensures t.past.missed == s.past.missed
  {
    if Begins(a) || SignsIn(a) || EndsShared(a) || EndsApps(a) { MissedAsItWas(s, a, t); }
  }

  lemma MissedStays(s: Sys, a: Action, t: Sys, sid: Id)
    requires Sound(s) && Judged(s) && Step(s, a, t) && RequestEffect(s, t, Actor(a)) && Grows(s.past, t.past)
    requires sid in s.past.missed
    ensures OutOfReach(t, sid)
  {
    StepTellsFew(s, a, t);
    OutOfReachStays(s, t, Actor(a), sid);
  }

  lemma NewlyMissed(s: Sys, r: nat, t: Sys, sid: Id)
    requires Sound(s) && Judged(s) && RecordStep(s, r, t) && Grows(s.past, t.past)
    requires sid in t.past.missed && sid !in s.past.missed
    ensures OutOfReach(t, sid)
  {
    assert RightAt(s, r) && ToRecord(s, r);
    NowOutOfReach(s, r, t);
  }

  lemma MissedKept(s: Sys, a: Action, t: Sys)
    requires Sound(s) && Judged(s) && Step(s, a, t) && RequestEffect(s, t, Actor(a)) && Grows(s.past, t.past)
    ensures forall sid :: sid in t.past.missed ==> OutOfReach(t, sid)
  {
    if !a.Record? { MissedIsNoted(s, a, t); }
    forall sid | sid in t.past.missed ensures OutOfReach(t, sid) {
      if sid in s.past.missed {
        MissedStays(s, a, t, sid);
      } else {
        NewlyMissed(s, a.r, t, sid);
      }
    }
  }

  lemma JudgedKept(s: Sys, a: Action, t: Sys)
    requires Sound(s) && Judged(s) && Step(s, a, t) && RequestEffect(s, t, Actor(a)) && Grows(s.past, t.past)
    ensures Judged(t)
  {
    UnrecordedKept(s, a, t);
    MissedKept(s, a, t);
  }
}
