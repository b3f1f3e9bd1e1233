/** Every action of the connection machine, one by one: what it leaves right, and
    what it leaves alone. */
module ConnectionSteps {
  import opened StoreModel
  import opened ConnectionMachine
  import opened ConnectionInvariant
  import opened ConnectionEffects

  lemma TickRight(s: Sys, time: Time, t: Sys)
    requires Local(s, 0) && StoreOk(s) && SessionsMade(s) && TickStep(s, time, t)
    ensures Right(s, t, 0)
  {}

  lemma SignInOnward(
    s: Sys, r: nat, sid: Id, name: Id, subject: string, clientID: string, scopes: seq<string>, lifetime: Time, t: Sys)
    requires Local(s, r) && SignInStep(s, r, sid, name, subject, clientID, scopes, lifetime, t)
    ensures Onward(s, t)
  {}

  lemma BegunStands(p: Past, sid: Id, clientID: string, scopes: seq<string>)
    requires sid in p.born
    ensures RequestOk(p, Begin(SavingTicket, sid).(clientID := clientID, scopes := scopes))
  {}

  lemma SignInRequest(
    s: Sys, r: nat, sid: Id, name: Id, subject: string, clientID: string, scopes: seq<string>, lifetime: Time, t: Sys)
    requires Ids(s) && SignInStep(s, r, sid, name, subject, clientID, scopes, lifetime, t)
    ensures RequestEffect(s, t, r)
  {
    BegunStands(t.past, sid, clientID, scopes);
  }

  lemma SignInStore(
    s: Sys, r: nat, sid: Id, name: Id, subject: string, clientID: string, scopes: seq<string>, lifetime: Time, t: Sys)
    requires Local(s, r) && SignInStep(s, r, sid, name, subject, clientID, scopes, lifetime, t)
    ensures StoreEffect(s, t)
  {}

  lemma SaveTicketOnward(s: Sys, r: nat, ticket: Id, t: Sys)
    requires Ids(s) && PastOk(s.past) && SaveTicketStep(s, r, ticket, t)
    ensures Onward(s, t)
  {}

  lemma SaveTicketRequest(s: Sys, r: nat, ticket: Id, t: Sys)
    requires SaveTicketStep(s, r, ticket, t)
    ensures RequestEffect(s, t, r)
  {}

  lemma SaveTicketStore(s: Sys, r: nat, ticket: Id, t: Sys)
    requires Here(s, r) && SaveTicketStep(s, r, ticket, t)
    ensures StoreEffect(s, t)
  {}

  lemma SpendTicketOnward(s: Sys, r: nat, ticket: Id, t: Sys)
    requires Ids(s) && PastOk(s.past) && SpendTicketStep(s, r, ticket, t)
    ensures Onward(s, t)
  {}

  lemma SpendTicketRequest(s: Sys, r: nat, ticket: Id, t: Sys)
    requires Ids(s) && StoreOk(s) && SpendTicketStep(s, r, ticket, t)
    ensures RequestEffect(s, t, r)
  {}

  lemma SpendTicketStore(s: Sys, r: nat, ticket: Id, t: Sys)
    requires SessionsMade(s) && SpendTicketStep(s, r, ticket, t)
    ensures StoreEffect(s, t)
  {}

  lemma LoadForChoiceRight(s: Sys, r: nat, t: Sys)
    requires Local(s, r) && LoadForChoiceStep(s, r, t)
    ensures Right(s, t, r)
  {}

  lemma SaveChoiceOnward(s: Sys, r: nat, tenant: string, assistant: string, t: Sys)
    requires Local(s, r) && Linear(s) && SaveChoiceStep(s, r, tenant, assistant, t)
    ensures Onward(s, t)
  {
    assert Holds(s, Held(r), s.reqs[r].sid, true);
  }

  lemma SaveChoiceRequest(s: Sys, r: nat, tenant: string, assistant: string, t: Sys)
    requires RightAt(s, r) && Linear(s) && SaveChoiceStep(s, r, tenant, assistant, t)
    ensures RequestEffect(s, t, r)
  {
    assert Holds(s, Held(r), s.reqs[r].sid, true);
  }

  lemma SaveChoiceStore(s: Sys, r: nat, tenant: string, assistant: string, t: Sys)
    requires Here(s, r) && Linear(s) && SaveChoiceStep(s, r, tenant, assistant, t)
    ensures StoreEffect(s, t)
  {
    assert Holds(s, Held(r), s.reqs[r].sid, true);
  }

  lemma SaveCodeOnward(s: Sys, r: nat, code: Id, t: Sys)
    requires Local(s, r) && SaveCodeStep(s, r, code, t)
    ensures Onward(s, t)
  {}

  lemma SaveCodeRequest(s: Sys, r: nat, code: Id, t: Sys)
    requires SaveCodeStep(s, r, code, t)
    ensures RequestEffect(s, t, r)
  {}

  lemma SaveCodeStore(s: Sys, r: nat, code: Id, t: Sys)
    requires RightAt(s, r) && SaveCodeStep(s, r, code, t)
    ensures StoreEffect(s, t)
  {}

  lemma SpendCodeOnward(s: Sys, r: nat, code: Id, clientID: string, t: Sys)
    requires Ids(s) && PastOk(s.past) && SpendCodeStep(s, r, code, clientID, t)
    ensures Onward(s, t)
  {}

  lemma SpendCodeRequest(s: Sys, r: nat, code: Id, clientID: string, t: Sys)
    requires Ids(s) && StoreOk(s) && SpendCodeStep(s, r, code, clientID, t)
    ensures RequestEffect(s, t, r)
  {}

  lemma SpendCodeStore(s: Sys, r: nat, code: Id, clientID: string, t: Sys)
    requires SessionsMade(s) && SpendCodeStep(s, r, code, clientID, t)
    ensures StoreEffect(s, t)
  {}

  lemma LoadForCodeRight(s: Sys, r: nat, t: Sys)
    requires Local(s, r) && LoadForCodeStep(s, r, t)
    ensures Right(s, t, r)
  {}

  lemma EndsConnectionRight(s: Sys, r: nat, t: Sys)
    requires Local(s, r) && EndsConnectionStep(s, r, t)
    ensures Right(s, t, r)
  {}

  lemma SaveFirstGrantOnward(s: Sys, r: nat, key: Id, name: Id, t: Sys)
    requires Ids(s) && PastOk(s.past) && RightAt(s, r) && SaveFirstGrantStep(s, r, key, name, t)
    ensures Onward(s, t)
  {}

  lemma SaveFirstGrantRequest(s: Sys, r: nat, key: Id, name: Id, t: Sys)
    requires Ids(s) && Here(s, r) && SaveFirstGrantStep(s, r, key, name, t)
    ensures RequestEffect(s, t, r)
  {}

  lemma SaveFirstGrantStore(s: Sys, r: nat, key: Id, name: Id, t: Sys)
    requires RightAt(s, r) && SaveFirstGrantStep(s, r, key, name, t)
    ensures StoreEffect(s, t)
  {}

  lemma SaveConnectionOnward(s: Sys, r: nat, t: Sys)
    requires Local(s, r) && Linear(s) && SaveConnectionStep(s, r, t)
    ensures Onward(s, t)
  {
    assert Holds(s, Held(r), s.reqs[r].sid, true);
  }

  lemma SaveConnectionRequest(s: Sys, r: nat, t: Sys)
    requires RightAt(s, r) && Linear(s) && SaveConnectionStep(s, r, t)
    ensures RequestEffect(s, t, r)
  {
    assert Holds(s, Held(r), s.reqs[r].sid, true);
  }

  lemma SaveConnectionStore(s: Sys, r: nat, t: Sys)
    requires Here(s, r) && Linear(s) && SaveConnectionStep(s, r, t)
    ensures StoreEffect(s, t)
  {
    assert Holds(s, Held(r), s.reqs[r].sid, true);
  }

  lemma IndexConnectionOnward(s: Sys, r: nat, t: Sys)
    requires Local(s, r) && IndexConnectionStep(s, r, t)
    ensures Onward(s, t)
  {}

  lemma IndexConnectionRequest(s: Sys, r: nat, t: Sys)
    requires IndexConnectionStep(s, r, t)
    ensures RequestEffect(s, t, r)
  {}

  lemma IndexConnectionStore(s: Sys, r: nat, t: Sys)
    requires Ids(s) && Here(s, r) && IndexConnectionStep(s, r, t)
    ensures StoreEffect(s, t)
  {}

  lemma PresentRefreshOnward(s: Sys, r: nat, key: Id, clientID: string, t: Sys)
    requires Local(s, r) && StoreOk(s) && PresentRefreshStep(s, r, key, clientID, t)
    ensures Onward(s, t)
  {}

  lemma PresentRefreshRequest(s: Sys, r: nat, key: Id, clientID: string, t: Sys)
    requires Local(s, r) && StoreOk(s) && PresentRefreshStep(s, r, key, clientID, t)
    ensures RequestEffect(s, t, r)
  {}

  lemma PresentRefreshStore(s: Sys, r: nat, key: Id, clientID: string, t: Sys)
    requires StoreOk(s) && PresentRefreshStep(s, r, key, clientID, t)
    ensures StoreEffect(s, t)
  {}

  lemma PresentInVainOnward(s: Sys, r: nat, key: Id, clientID: string, t: Sys)
    requires Local(s, r) && PresentInVainStep(s, r, key, clientID, t)
    ensures Onward(s, t)
  {}

  lemma PresentInVainRequest(s: Sys, r: nat, key: Id, clientID: string, t: Sys)
    requires PresentInVainStep(s, r, key, clientID, t)
    ensures RequestEffect(s, t, r)
  {}

  lemma PresentInVainStore(s: Sys, r: nat, key: Id, clientID: string, t: Sys)
    requires PresentInVainStep(s, r, key, clientID, t)
    ensures StoreEffect(s, t)
  {}

  lemma LoadForRenewalOnward(s: Sys, r: nat, t: Sys)
    requires Local(s, r) && LoadForRenewalStep(s, r, t)
    ensures Onward(s, t)
  {}

  lemma LoadForRenewalRequest(s: Sys, r: nat, t: Sys)
    requires Here(s, r) && LoadForRenewalStep(s, r, t)
    ensures RequestEffect(s, t, r)
  {}

  lemma LoadForRenewalStore(s: Sys, r: nat, t: Sys)
    requires LoadForRenewalStep(s, r, t)
    ensures StoreEffect(s, t)
  {}

  lemma ClaimOnward(s: Sys, r: nat, t: Sys)
    requires Local(s, r) && ClaimStep(s, r, t)
    ensures Onward(s, t)
  {}

  lemma ClaimRequest(s: Sys, r: nat, t: Sys)
    requires Ids(s) && Here(s, r) && ClaimStep(s, r, t)
    ensures RequestEffect(s, t, r)
  {}

  lemma ClaimStore(s: Sys, r: nat, t: Sys)
    requires ClaimStep(s, r, t)
    ensures StoreEffect(s, t)
  {}

  lemma SaveNextOnward(s: Sys, r: nat, next: Id, t: Sys)
    requires Local(s, r) && SaveNextStep(s, r, next, t)
    ensures Onward(s, t)
  {}

  lemma SaveNextRequest(s: Sys, r: nat, next: Id, t: Sys)
    requires Ids(s) && Here(s, r) && SaveNextStep(s, r, next, t)
    ensures RequestEffect(s, t, r)
  {}

  lemma SaveNextStore(s: Sys, r: nat, next: Id, t: Sys)
    requires RightAt(s, r) && SaveNextStep(s, r, next, t)
    ensures StoreEffect(s, t)
  {}

  lemma MarkOnward(s: Sys, r: nat, t: Sys)
    requires Local(s, r) && MarkStep(s, r, t)
    ensures Onward(s, t)
  {}

  lemma MarkRequest(s: Sys, r: nat, t: Sys)
    requires RightAt(s, r) && MarkStep(s, r, t)
    ensures RequestEffect(s, t, r)
  {}

  lemma MarkStore(s: Sys, r: nat, t: Sys)
    requires RightAt(s, r) && MarkStep(s, r, t)
    ensures StoreEffect(s, t)
  {}

  lemma SaveRenewalOnward(s: Sys, r: nat, t: Sys)
    requires Local(s, r) && SaveRenewalStep(s, r, t)
    ensures Onward(s, t)
  {}

  lemma SaveRenewalRequest(s: Sys, r: nat, t: Sys)
    requires SaveRenewalStep(s, r, t)
    ensures RequestEffect(s, t, r)
  {}

  lemma SaveRenewalStore(s: Sys, r: nat, t: Sys)
    requires RightAt(s, r) && SaveRenewalStep(s, r, t)
    ensures StoreEffect(s, t)
  {}

  lemma PresentRevokeOnward(s: Sys, r: nat, key: Id, clientID: string, t: Sys)
    requires Local(s, r) && StoreOk(s) && PresentRevokeStep(s, r, key, clientID, t)
    ensures Onward(s, t)
  {}

  lemma PresentRevokeRequest(s: Sys, r: nat, key: Id, clientID: string, t: Sys)
    requires Local(s, r) && StoreOk(s) && PresentRevokeStep(s, r, key, clientID, t)
    ensures RequestEffect(s, t, r)
  {}

  lemma PresentRevokeStore(s: Sys, r: nat, key: Id, clientID: string, t: Sys)
    requires StoreOk(s) && PresentRevokeStep(s, r, key, clientID, t)
    ensures StoreEffect(s, t)
  {}

  lemma LoadForRevokeOnward(s: Sys, r: nat, t: Sys)
    requires Local(s, r) && LoadForRevokeStep(s, r, t)
    ensures Onward(s, t)
  {}

  lemma LoadForRevokeRequest(s: Sys, r: nat, t: Sys)
    requires Ids(s) && Here(s, r) && LoadForRevokeStep(s, r, t)
    ensures RequestEffect(s, t, r)
  {}

  lemma LoadForRevokeStore(s: Sys, r: nat, t: Sys)
    requires LoadForRevokeStep(s, r, t)
    ensures StoreEffect(s, t)
  {}

  lemma DeleteEndedRight(s: Sys, r: nat, t: Sys)
    requires Local(s, r) && DeleteEndedStep(s, r, t)
    ensures Right(s, t, r)
  {}

  lemma DeleteOwnGrantOnward(s: Sys, r: nat, t: Sys)
    requires Local(s, r) && DeleteOwnGrantStep(s, r, t)
    ensures Onward(s, t)
  {}

  lemma DeleteOwnGrantRequest(s: Sys, r: nat, t: Sys)
    requires Ids(s) && Here(s, r) && DeleteOwnGrantStep(s, r, t)
    ensures RequestEffect(s, t, r)
  {}

  lemma DeleteOwnGrantStore(s: Sys, r: nat, t: Sys)
    requires DeleteOwnGrantStep(s, r, t)
    ensures StoreEffect(s, t)
  {}

  lemma DeleteKeyGrantOnward(s: Sys, r: nat, t: Sys)
    requires Local(s, r) && DeleteKeyGrantStep(s, r, t)
    ensures Onward(s, t)
  {}

  lemma DeleteKeyGrantRequest(s: Sys, r: nat, t: Sys)
    requires Here(s, r) && DeleteKeyGrantStep(s, r, t)
    ensures RequestEffect(s, t, r)
  {}

  lemma DeleteKeyGrantStore(s: Sys, r: nat, t: Sys)
    requires DeleteKeyGrantStep(s, r, t)
    ensures StoreEffect(s, t)
  {}

  lemma RemoveEndedRight(s: Sys, r: nat, t: Sys)
    requires Local(s, r) && RemoveEndedStep(s, r, t)
    ensures Right(s, t, r)
  {}

  lemma DropGrantRight(s: Sys, r: nat, t: Sys)
    requires Local(s, r) && DropGrantStep(s, r, t)
    ensures Right(s, t, r)
  {}

  lemma LookOnward(s: Sys, r: nat, index: IndexKey, conn: Connection, purpose: Purpose, t: Sys)
    requires Local(s, r) && StoreOk(s) && LookStep(s, r, index, conn, purpose, t)
    ensures Onward(s, t)
  {}

  lemma LookRequest(s: Sys, r: nat, index: IndexKey, conn: Connection, purpose: Purpose, t: Sys)
    requires Local(s, r) && StoreOk(s) && LookStep(s, r, index, conn, purpose, t)
    ensures RequestEffect(s, t, r)
  {}

  lemma LookStore(s: Sys, r: nat, index: IndexKey, conn: Connection, purpose: Purpose, t: Sys)
    requires Ids(s) && Here(s, r) && StoreOk(s) && LookStep(s, r, index, conn, purpose, t)
    ensures StoreEffect(s, t)
  {}

  lemma MissLookedOnward(s: Sys, r: nat, t: Sys)
    requires Local(s, r) && MissLookedStep(s, r, t)
    ensures Onward(s, t)
  {}

  lemma MissLookedRequest(s: Sys, r: nat, t: Sys)
    requires Here(s, r) && MissLookedStep(s, r, t)
    ensures RequestEffect(s, t, r)
  {}

  lemma MissLookedStore(s: Sys, r: nat, t: Sys)
    requires MissLookedStep(s, r, t)
    ensures StoreEffect(s, t)
  {}

  lemma PassLookedRight(s: Sys, r: nat, t: Sys)
    requires Local(s, r) && PassLookedStep(s, r, t)
    ensures Right(s, t, r)
  {}

  lemma EndLookedOnward(s: Sys, r: nat, t: Sys)
    requires Ids(s) && PastOk(s.past) && EndLookedStep(s, r, t)
    ensures Onward(s, t)
  {}

  lemma EndLookedRequest(s: Sys, r: nat, t: Sys)
    requires Here(s, r) && EndLookedStep(s, r, t)
    ensures RequestEffect(s, t, r)
  {}

  lemma EndLookedStore(s: Sys, r: nat, t: Sys)
    requires EndLookedStep(s, r, t)
    ensures StoreEffect(s, t)
  {}

  lemma AcceptLookedOnward(s: Sys, r: nat, t: Sys)
    requires Local(s, r) && AcceptLookedStep(s, r, t)
    ensures Onward(s, t)
  {}

  lemma AcceptLookedRequest(s: Sys, r: nat, t: Sys)
    requires Here(s, r) && AcceptLookedStep(s, r, t)
    ensures RequestEffect(s, t, r)
  {}

  lemma AcceptLookedStore(s: Sys, r: nat, t: Sys)
    requires AcceptLookedStep(s, r, t)
    ensures StoreEffect(s, t)
  {}

  lemma CleanRight(s: Sys, r: nat, t: Sys)
    requires Local(s, r) && CleanStep(s, r, t)
    ensures Right(s, t, r)
  {}

  lemma SaveUseOnward(s: Sys, r: nat, t: Sys)
    requires Local(s, r) && SaveUseStep(s, r, t)
    ensures Onward(s, t)
  {}

  lemma SaveUseRequest(s: Sys, r: nat, t: Sys)
    requires SaveUseStep(s, r, t)
    ensures RequestEffect(s, t, r)
  {}

  lemma SaveUseStore(s: Sys, r: nat, t: Sys)
    requires RightAt(s, r) && SaveUseStep(s, r, t)
    ensures StoreEffect(s, t)
  {}

  lemma RefuseRight(s: Sys, r: nat, t: Sys)
    requires Local(s, r) && RefuseStep(s, r, t)
    ensures Right(s, t, r)
  {}

  lemma FalterRight(s: Sys, r: nat, t: Sys)
    requires Local(s, r) && FalterStep(s, r, t)
    ensures Right(s, t, r)
  {}

  lemma CrashOnward(s: Sys, r: nat, t: Sys)
    requires Ids(s) && PastOk(s.past) && CrashStep(s, r, t)
    ensures Onward(s, t)
  {}

  lemma CrashRequest(s: Sys, r: nat, t: Sys)
    requires CrashStep(s, r, t)
    ensures RequestEffect(s, t, r)
  {}

  lemma CrashStore(s: Sys, r: nat, t: Sys)
    requires CrashStep(s, r, t)
    ensures StoreEffect(s, t)
  {}

  lemma TickLeaves(s: Sys, time: Time, t: Sys)
    requires Local(s, 0) && StoreOk(s) && TickStep(s, time, t)
    ensures OnlyLoses(s, t, 0) && ClaimsNothing(s, t, 0) && KeepsLines(s, t) && KeepsMarks(s, t, 0)
  {}

  lemma SignInLeaves(
    s: Sys, r: nat, sid: Id, name: Id, subject: string, clientID: string, scopes: seq<string>, lifetime: Time, t: Sys)
    requires Ids(s) && Here(s, r) && SignInStep(s, r, sid, name, subject, clientID, scopes, lifetime, t)
    ensures ClaimsNothing(s, t, r) && KeepsLines(s, t) && KeepsMarks(s, t, r)
  {}

  lemma SaveTicketLeaves(s: Sys, r: nat, ticket: Id, t: Sys)
    requires SaveTicketStep(s, r, ticket, t)
    ensures ClaimsNothing(s, t, r) && KeepsLines(s, t) && KeepsMarks(s, t, r)
  {}

  lemma SpendTicketLeaves(s: Sys, r: nat, ticket: Id, t: Sys)
    requires SpendTicketStep(s, r, ticket, t)
    ensures ClaimsNothing(s, t, r) && KeepsLines(s, t) && KeepsMarks(s, t, r)
  {}

  lemma LoadForChoiceLeaves(s: Sys, r: nat, t: Sys)
    requires LoadForChoiceStep(s, r, t)
    ensures OnlyLoses(s, t, r) && ClaimsNothing(s, t, r) && KeepsLines(s, t) && KeepsMarks(s, t, r)
  {}

  lemma SaveChoiceLeaves(s: Sys, r: nat, tenant: string, assistant: string, t: Sys)
    requires Here(s, r) && SaveChoiceStep(s, r, tenant, assistant, t)
    ensures OnlyLoses(s, t, r) && ClaimsNothing(s, t, r) && KeepsLines(s, t) && KeepsMarks(s, t, r)
  {}

  lemma SaveCodeLeaves(s: Sys, r: nat, code: Id, t: Sys)
    requires SaveCodeStep(s, r, code, t)
    ensures ClaimsNothing(s, t, r) && KeepsLines(s, t) && KeepsMarks(s, t, r)
  {}

  lemma SpendCodeLeaves(s: Sys, r: nat, code: Id, clientID: string, t: Sys)
    requires Ids(s) && Here(s, r) && SpendCodeStep(s, r, code, clientID, t)
    ensures ClaimsNothing(s, t, r) && KeepsLines(s, t) && KeepsMarks(s, t, r)
  {}

  lemma LoadForCodeLeaves(s: Sys, r: nat, t: Sys)
    requires LoadForCodeStep(s, r, t)
    ensures OnlyLoses(s, t, r) && ClaimsNothing(s, t, r) && KeepsLines(s, t) && KeepsMarks(s, t, r)
  {}

  lemma EndsConnectionLeaves(s: Sys, r: nat, t: Sys)
    requires EndsConnectionStep(s, r, t)
    ensures OnlyLoses(s, t, r) && ClaimsNothing(s, t, r) && KeepsLines(s, t) && KeepsMarks(s, t, r)
  {}

  lemma SaveFirstGrantLeaves(s: Sys, r: nat, key: Id, name: Id, t: Sys)
    requires Local(s, r) && SaveFirstGrantStep(s, r, key, name, t)
    ensures ClaimsNothing(s, t, r) && KeepsLines(s, t) && KeepsMarks(s, t, r)
  {}

  lemma SaveConnectionLeaves(s: Sys, r: nat, t: Sys)
    requires Here(s, r) && SaveConnectionStep(s, r, t)
    ensures ClaimsNothing(s, t, r) && KeepsMarks(s, t, r)
  {}

  lemma IndexConnectionLeaves(s: Sys, r: nat, t: Sys)
    requires IndexConnectionStep(s, r, t)
    ensures OnlyLoses(s, t, r) && ClaimsNothing(s, t, r) && KeepsMarks(s, t, r)
  {}

  lemma PresentRefreshLeaves(s: Sys, r: nat, key: Id, clientID: string, t: Sys)
    requires PresentRefreshStep(s, r, key, clientID, t)
    ensures OnlyLoses(s, t, r) && ClaimsNothing(s, t, r) && KeepsLines(s, t)
  {}

  lemma PresentInVainLeaves(s: Sys, r: nat, key: Id, clientID: string, t: Sys)
    requires PresentInVainStep(s, r, key, clientID, t)
    ensures OnlyLoses(s, t, r) && ClaimsNothing(s, t, r) && KeepsLines(s, t)
  {}

  lemma LoadForRenewalLeaves(s: Sys, r: nat, t: Sys)
    requires LoadForRenewalStep(s, r, t)
    ensures OnlyLoses(s, t, r) && ClaimsNothing(s, t, r) && KeepsLines(s, t) && KeepsMarks(s, t, r)
  {}

  lemma ClaimLeaves(s: Sys, r: nat, t: Sys)
    requires ClaimStep(s, r, t)
    ensures KeepsLines(s, t)
  {}

  lemma ClaimKeepsDue(s: Sys, r: nat, t: Sys)
    requires PastOk(s.past) && RightAt(s, r) && ClaimStep(s, r, t)
    ensures KeepsMarks(s, t, r)
  {}

  lemma SaveNextLeaves(s: Sys, r: nat, next: Id, t: Sys)
    requires Local(s, r) && SaveNextStep(s, r, next, t)
    ensures ClaimsNothing(s, t, r) && KeepsLines(s, t) && KeepsMarks(s, t, r)
  {}

  lemma MarkLeaves(s: Sys, r: nat, t: Sys)
    requires MarkStep(s, r, t)
    ensures OnlyLoses(s, t, r) && ClaimsNothing(s, t, r) && KeepsLines(s, t)
  {}

  lemma SaveRenewalLeaves(s: Sys, r: nat, t: Sys)
    requires Here(s, r) && SaveRenewalStep(s, r, t)
    ensures OnlyLoses(s, t, r) && KeepsLines(s, t) && KeepsMarks(s, t, r)
  {}

  lemma PresentRevokeLeaves(s: Sys, r: nat, key: Id, clientID: string, t: Sys)
    requires Ids(s) && Here(s, r) && PresentRevokeStep(s, r, key, clientID, t)
    ensures OnlyLoses(s, t, r) && ClaimsNothing(s, t, r) && KeepsLines(s, t) && KeepsMarks(s, t, r)
  {}

  lemma LoadForRevokeLeaves(s: Sys, r: nat, t: Sys)
    requires LoadForRevokeStep(s, r, t)
    ensures OnlyLoses(s, t, r) && ClaimsNothing(s, t, r) && KeepsLines(s, t) && KeepsMarks(s, t, r)
  {}

  lemma DeleteEndedLeaves(s: Sys, r: nat, t: Sys)
    requires DeleteEndedStep(s, r, t)
    ensures OnlyLoses(s, t, r) && ClaimsNothing(s, t, r) && KeepsLines(s, t) && KeepsMarks(s, t, r)
  {}

  lemma DeleteOwnGrantLeaves(s: Sys, r: nat, t: Sys)
    requires DeleteOwnGrantStep(s, r, t)
    ensures OnlyLoses(s, t, r) && ClaimsNothing(s, t, r) && KeepsLines(s, t)
  {}

  lemma DeleteOwnGrantKeepsMarks(s: Sys, r: nat, t: Sys)
    requires PastOk(s.past) && RightAt(s, r) && DeleteOwnGrantStep(s, r, t)
    ensures KeepsMarks(s, t, r)
  {}

  lemma DeleteKeyGrantLeaves(s: Sys, r: nat, t: Sys)
    requires DeleteKeyGrantStep(s, r, t)
    ensures OnlyLoses(s, t, r) && ClaimsNothing(s, t, r) && KeepsLines(s, t)
  {}

  lemma DeleteKeyGrantKeepsMarks(s: Sys, r: nat, t: Sys)
    requires PastOk(s.past) && RightAt(s, r) && DeleteKeyGrantStep(s, r, t)
    ensures KeepsMarks(s, t, r)
  {}

  lemma RemoveEndedLeaves(s: Sys, r: nat, t: Sys)
    requires Here(s, r) && RemoveEndedStep(s, r, t)
    ensures OnlyLoses(s, t, r) && ClaimsNothing(s, t, r) && KeepsLines(s, t) && KeepsMarks(s, t, r)
  {}

  lemma DropGrantLeaves(s: Sys, r: nat, t: Sys)
    requires Local(s, r) && DropGrantStep(s, r, t)
    ensures OnlyLoses(s, t, r) && ClaimsNothing(s, t, r) && KeepsLines(s, t) && KeepsMarks(s, t, r)
  {}

  lemma LookLeaves(s: Sys, r: nat, index: IndexKey, conn: Connection, purpose: Purpose, t: Sys)
    requires LookStep(s, r, index, conn, purpose, t)
    ensures OnlyLoses(s, t, r) && ClaimsNothing(s, t, r) && KeepsLines(s, t) && KeepsMarks(s, t, r)
  {}

  lemma MissLookedLeaves(s: Sys, r: nat, t: Sys)
    requires MissLookedStep(s, r, t)
    ensures OnlyLoses(s, t, r) && ClaimsNothing(s, t, r) && KeepsLines(s, t) && KeepsMarks(s, t, r)
  {}

  lemma PassLookedLeaves(s: Sys, r: nat, t: Sys)
    requires PassLookedStep(s, r, t)
    ensures OnlyLoses(s, t, r) && ClaimsNothing(s, t, r) && KeepsLines(s, t) && KeepsMarks(s, t, r)
  {}

  lemma EndLookedLeaves(s: Sys, r: nat, t: Sys)
    requires EndLookedStep(s, r, t)
    ensures OnlyLoses(s, t, r) && ClaimsNothing(s, t, r) && KeepsLines(s, t) && KeepsMarks(s, t, r)
  {}

  lemma AcceptLookedLeaves(s: Sys, r: nat, t: Sys)
    requires AcceptLookedStep(s, r, t)
    ensures OnlyLoses(s, t, r) && ClaimsNothing(s, t, r) && KeepsLines(s, t) && KeepsMarks(s, t, r)
  {}

  lemma CleanLeaves(s: Sys, r: nat, t: Sys)
    requires Here(s, r) && CleanStep(s, r, t)
    ensures OnlyLoses(s, t, r) && ClaimsNothing(s, t, r) && KeepsLines(s, t) && KeepsMarks(s, t, r)
  {}

  lemma SaveUseLeaves(s: Sys, r: nat, t: Sys)
    requires SaveUseStep(s, r, t)
    ensures OnlyLoses(s, t, r) && ClaimsNothing(s, t, r) && KeepsLines(s, t) && KeepsMarks(s, t, r)
  {}

  lemma RefuseLeaves(s: Sys, r: nat, t: Sys)
    requires RefuseStep(s, r, t)
    ensures OnlyLoses(s, t, r) && ClaimsNothing(s, t, r) && KeepsLines(s, t) && KeepsMarks(s, t, r)
  {}

  lemma FalterLeaves(s: Sys, r: nat, t: Sys)
    requires FalterStep(s, r, t)
    ensures OnlyLoses(s, t, r) && ClaimsNothing(s, t, r) && KeepsLines(s, t) && KeepsMarks(s, t, r)
  {}

  lemma CrashLeaves(s: Sys, r: nat, t: Sys)
    requires CrashStep(s, r, t)
    ensures OnlyLoses(s, t, r) && ClaimsNothing(s, t, r) && KeepsLines(s, t) && KeepsMarks(s, t, r)
  {}
}
