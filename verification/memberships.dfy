/** What a user token carries by the register's answer (routes/token.go). */
module Memberships {
  import opened StoreModel

  datatype Membership = Membership(tenantID: string, scopes: seq<string>)

  // What a token is minted with: one membership's scopes and tenant, or, when
  // several and none named, the tenants to choose from and no scopes.
  datatype Outcome = Outcome(scopes: seq<string>, tenant: string, choices: seq<string>)

  function Tenants(ms: seq<Membership>): (r: seq<string>)
    ensures |r| == |ms| && forall i :: 0 <= i < |ms| ==> r[i] == ms[i].tenantID
  {
    if ms == [] then [] else [ms[0].tenantID] + Tenants(ms[1..])
  }

  // The first membership in the tenant.
  function InTenant(ms: seq<Membership>, tenant: string): (r: Option<Membership>)
    ensures r.Some? ==> r.value in ms && r.value.tenantID == tenant
    ensures r.None? ==> forall m :: m in ms ==> m.tenantID != tenant
  {
    if ms == [] then None
    else if ms[0].tenantID == tenant then Some(ms[0])
    else InTenant(ms[1..], tenant)
  }

  function Chosen(ms: seq<Membership>, hint: string): Option<Membership> {
    if hint != "" then InTenant(ms, hint)
    else if |ms| == 1 then Some(ms[0])
    else None
  }

  /** userScopes once the register has answered `ms`; None is the refusal. A client
      whose people need no membership gets its baseline and no tenant. */
  function UserScopes(required: bool, baseline: seq<string>, ms: seq<Membership>, hint: string): Option<Outcome> {
    if !required then Some(Outcome(baseline, "", []))
    else
      var chosen := Chosen(ms, hint);
      if ms == [] || (chosen.None? && hint != "") then None
      else if chosen.None? then Some(Outcome([], "", Tenants(ms)))
      else Some(Outcome(chosen.value.scopes, chosen.value.tenantID, []))
  }

  /** Never a guess: the choice is the person's exactly when they have several
      memberships and no tenant was named, and it is then of every tenant, in order,
      with nothing minted but that. A client whose people need no membership gets its
      baseline for any. */
  lemma ChoiceIsThePersons(baseline: seq<string>, ms: seq<Membership>, hint: string)
    ensures UserScopes(false, baseline, ms, hint) == Some(Outcome(baseline, "", []))
    ensures var out := UserScopes(true, baseline, ms, hint);
            && (out.Some? && out.value.choices != [] <==> hint == "" && |ms| > 1)
            && (hint == "" && |ms| > 1 ==>
                  && out.value.scopes == [] && out.value.tenant == "" && |out.value.choices| == |ms|
                  && forall i :: 0 <= i < |ms| ==> out.value.choices[i] == ms[i].tenantID)
            && (hint == "" && |ms| == 1 ==> out == Some(Outcome(ms[0].scopes, ms[0].tenantID, [])))
            && (hint == "" && ms == [] ==> out.None?)
  {
    if |ms| > 1 { assert Tenants(ms) != []; }
  }

  /** Never a union: what is minted is one membership whole, the first in the tenant
      where one was named; else nothing but the choice; and a person with none there
      is refused. */
  lemma {:induction false} OneMembershipOrNone(baseline: seq<string>, ms: seq<Membership>, hint: string)
    ensures var out := UserScopes(true, baseline, ms, hint);
            && (out.Some? && out.value.choices == [] ==>
                  exists m :: m in ms && m.scopes == out.value.scopes && m.tenantID == out.value.tenant)
            && (out.Some? && hint != "" ==> out.value.tenant == hint && out.value.choices == [])
            && (out.Some? && out.value.choices != [] ==>
                  out.value.scopes == [] && out.value.tenant == "" && |ms| > 1 && out.value.choices == Tenants(ms))
            && (out.None? <==> ms == [] || (hint != "" && forall m :: m in ms ==> m.tenantID != hint))
    ensures forall i :: hint != "" && 0 <= i < |ms| && ms[i].tenantID == hint
                        && (forall j :: 0 <= j < i ==> ms[j].tenantID != hint) ==>
                          UserScopes(true, baseline, ms, hint) == Some(Outcome(ms[i].scopes, hint, []))
  {
    if hint == "" && |ms| == 1 { assert ms[0] in ms; }
    if hint == "" && |ms| > 1 { assert Tenants(ms) != []; }
    forall i | hint != "" && 0 <= i < |ms| && ms[i].tenantID == hint
               && (forall j :: 0 <= j < i ==> ms[j].tenantID != hint)
      ensures UserScopes(true, baseline, ms, hint) == Some(Outcome(ms[i].scopes, hint, []))
    {
      FirstInTenant(ms, hint, i);
    }
  }

  lemma {:induction false} FirstInTenant(ms: seq<Membership>, tenant: string, i: nat)
    requires i < |ms| && ms[i].tenantID == tenant && forall j :: 0 <= j < i ==> ms[j].tenantID != tenant
    ensures InTenant(ms, tenant) == Some(ms[i])
  {
    if i > 0 { FirstInTenant(ms[1..], tenant, i - 1); }
  }

  method ChooseMembership(ms: seq<Membership>, hint: string) returns (chosen: Option<Membership>, choices: seq<string>)
    ensures chosen == Chosen(ms, hint)
    ensures choices == if chosen.None? && hint == "" then Tenants(ms) else []
  {
    choices := [];
    if hint != "" {
      for i := 0 to |ms|
        invariant InTenant(ms, hint) == InTenant(ms[i..], hint)
      {
        if ms[i].tenantID == hint {
          return Some(ms[i]), [];
        }
      }
      return None, [];
    }
    if |ms| == 1 {
      return Some(ms[0]), [];
    }
    for i := 0 to |ms|
      invariant choices == Tenants(ms)[..i]
    {
      choices := choices + [ms[i].tenantID];
    }
    assert Tenants(ms)[..|ms|] == Tenants(ms);
    return None, choices;
  }
}
