/** The chain of tokens that starts at an AI app's (routes/aiapp.go, routes/token.go,
    issuer/issuer.go): an app's token through a person's assistant, and the tokens
    exchanged from it, service after service, in any number. */
module Exchange {
  import opened StoreModel
  import opened Words
  import opened Registry

  const ASSISTANT_WAY := "assistant"
  const LOWEST := "low"

  // Who acts: the latest, and those it acts for.
  datatype Actor = Nobody | Actor(subject: string, prior: Actor)

  // What a token says; its signature, times and key are not modelled.
  datatype Claims = Claims(
    subject: string, audience: seq<string>, scope: string, loa: string, loginMethod: string,
    serialNumber: string, tenant: string, clientID: string, act: Actor)

  // An app's row and its connection, the assistant's boxes as the register has them.
  datatype AppAsk = AppAsk(
    app: SignInClient, subject: string, tenant: string, assistant: string,
    asked: seq<string>, assistantBoxes: seq<string>)

  // An exchange asked for. `service` is whether its subject token names a service;
  // `live` whether the connection it names was found.
  datatype Ask = Ask(client: string, audience: string, scope: string, service: bool, live: bool)

  function Both(a: seq<string>, b: seq<string>): (r: seq<string>)
    ensures |r| <= |a| && forall s :: s in r <==> s in a && s in b
  {
    if a == [] then []
    else if a[0] in b then [a[0]] + Both(a[1..], b)
    else Both(a[1..], b)
  }

  /** The order is kept: what both hold of two lists is that of the one, then that of the
      other. */
  lemma {:induction false} BothInOrder(a: seq<string>, more: seq<string>, b: seq<string>)
    ensures Both(a + more, b) == Both(a, b) + Both(more, b)
  {
    if a == [] {
      assert a + more == more;
    } else {
      assert (a + more)[1..] == a[1..] + more;
      BothInOrder(a[1..], more, b);
    }
  }

  /** intersectScopes: what both lists hold, in the order of the first. */
  method IntersectScopes(allowed: seq<string>, granted: seq<string>) returns (out: seq<string>)
    ensures out == Both(allowed, granted)
  {
    var held := set s | s in granted;
    out := [];
    for i := 0 to |allowed|
      invariant out == Both(allowed[..i], granted)
    {
      BothInOrder(allowed[..i], [allowed[i]], granted);
      assert allowed[..i + 1] == allowed[..i] + [allowed[i]];
      if allowed[i] in held {
        out := out + [allowed[i]];
      }
    }
    assert allowed[..|allowed|] == allowed;
  }

  /** What an app asks for: boxes of its row, each once, all when it names none. */
  function Asked(row: seq<string>, scope: seq<string>, asked: seq<string>): Option<seq<string>> {
    if scope == [] then Some(if asked == [] then row else asked)
    else if scope[0] == "openid" || scope[0] == "offline_access" then Asked(row, scope[1..], asked)
    else if scope[0] !in row then None
    else Asked(row, scope[1..], if scope[0] in asked then asked else asked + [scope[0]])
  }

  method ReadAsk(app: SignInClient, scope: string) returns (asked: Option<seq<string>>)
    ensures asked == Asked(app.scopes, Fields(scope), [])
  {
    var words := Fields(scope);
    var out := [];
    for i := 0 to |words|
      invariant Asked(app.scopes, words, []) == Asked(app.scopes, words[i..], out)
    {
      if words[i] == "openid" || words[i] == "offline_access" {
        continue;
      }
      if words[i] !in app.scopes {
        return None;
      }
      if words[i] !in out {
        out := out + [words[i]];
      }
    }
    if |out| == 0 {
      out := app.scopes;
    }
    return Some(out);
  }

  predicate Distinct(xs: seq<string>) {
    forall i, j :: 0 <= i < j < |xs| ==> xs[i] != xs[j]
  }

  // A box is named in a scope list, not one of the words every sign-in has.
  predicate Named(scope: seq<string>, s: string) {
    s in scope && s != "openid" && s != "offline_access"
  }

  /** An ask is refused exactly when it names something not of the row. Granted, it is
      of every box named and no other, each once; or of the whole row, when it names
      none. */
  lemma {:induction false} AsksOfItsRow(row: seq<string>, scope: seq<string>, asked: seq<string>)
    requires Distinct(asked) && forall s :: s in asked ==> s in row
    ensures var r := Asked(row, scope, asked);
            && (r.None? <==> exists s :: Named(scope, s) && s !in row)
            && (r.Some? ==> forall s :: s in r.value ==> s in row)
            && (r.Some? ==>
                  if asked == [] && !(exists s :: Named(scope, s)) then r.value == row
                  else Distinct(r.value) && forall s :: s in r.value <==> s in asked || Named(scope, s))
  {
    if scope != [] {
      var next :=
        if scope[0] == "openid" || scope[0] == "offline_access" || scope[0] !in row || scope[0] in asked then asked
        else asked + [scope[0]];
      AsksOfItsRow(row, scope[1..], next);
      assert forall s :: s in scope <==> s == scope[0] || s in scope[1..];
      forall s ensures Named(scope, s) <==> Named(scope[1..], s) || Named([scope[0]], s) {}
      assert Named(scope, scope[0]) <==> scope[0] != "openid" && scope[0] != "offline_access";
    }
  }

  // Of an exchange's scopes, the boxes held and the levels named.
  function Narrowed(scopes: seq<string>, held: seq<string>, named: seq<string>): (r: seq<string>)
    ensures |r| <= |scopes|
    ensures forall s :: s in r <==> s in scopes && ((IsLevel(s) && s in named) || (IsBox(s) && s in held))
  {
    if scopes == [] then []
    else if (IsLevel(scopes[0]) && scopes[0] in named) || (IsBox(scopes[0]) && scopes[0] in held)
    then [scopes[0]] + Narrowed(scopes[1..], held, named)
    else Narrowed(scopes[1..], held, named)
  }

  lemma {:induction false} NarrowedInOrder(
    scopes: seq<string>, more: seq<string>, held: seq<string>, named: seq<string>)
    ensures Narrowed(scopes + more, held, named) == Narrowed(scopes, held, named) + Narrowed(more, held, named)
  {
    if scopes == [] {
      assert scopes + more == more;
    } else {
      assert (scopes + more)[1..] == scopes[1..] + more;
      NarrowedInOrder(scopes[1..], more, held, named);
    }
  }

  method NarrowForAssistant(scopes: seq<string>, subjectScope: string, named: seq<string>) returns (out: seq<string>)
    ensures out == Narrowed(scopes, Fields(subjectScope), named)
  {
    var held := Fields(subjectScope);
    out := [];
    for i := 0 to |scopes|
      invariant out == Narrowed(scopes[..i], held, named)
    {
      var s := scopes[i];
      NarrowedInOrder(scopes[..i], [s], held, named);
      assert scopes[..i + 1] == scopes[..i] + [s];
      if (IsLevel(s) && s in named) || (IsBox(s) && s in held) {
        out := out + [s];
      }
    }
    assert scopes[..|scopes|] == scopes;
  }

  /** connectionScopes and IssueApp: the boxes asked for that the row, and the
      assistant, hold now. */
  function AppScopes(a: AppAsk): seq<string> {
    Both(Both(a.asked, a.app.scopes), a.assistantBoxes)
  }

  function IssueApp(a: AppAsk): Option<Claims> {
    if a.assistant == "" then None
    else Some(Claims(a.subject, [a.app.audience], Joined(AppScopes(a)), LOWEST, ASSISTANT_WAY, "", a.tenant,
                     a.app.clientID, Actor(a.assistant, Nobody)))
  }

  predicate MayBeActedFor(service: bool, subject: Claims) {
    !service || subject.tenant != ""
  }

  /** grantTokenExchange, once the client has proved itself and the subject token is
      this issuer's own. An app's own token is one that names its client. */
  function Exchanged(reg: Registry, subject: Claims, a: Ask): Answer<Claims> {
    if !MayBeActedFor(a.service, subject) || !ActsFrom(reg, a.client, subject.audience) then Denied
    else if subject.loginMethod == ASSISTANT_WAY && subject.clientID != "" && !a.live then Denied
    else
      var scopes := ScopesFor(reg, a.client, a.audience, Fields(a.scope));
      match scopes
      case UnknownClient => UnknownClient
      case Denied => Denied
      case Granted(given) =>
        var kept := if subject.loginMethod == ASSISTANT_WAY
                    then Narrowed(given, Fields(subject.scope), LevelsFor(reg, a.client, a.audience)) else given;
        Granted(Claims(subject.subject, [a.audience], Joined(kept), subject.loa, subject.loginMethod,
                       subject.serialNumber, subject.tenant, "", Actor(a.client, subject.act)))
  }

  method GrantTokenExchange(reg: Registry, subject: Claims, a: Ask) returns (answer: Answer<Claims>)
    ensures answer == Exchanged(reg, subject, a)
  {
    var requested := Fields(a.scope);
    if !MayBeActedFor(a.service, subject) {
      return Denied;
    }
    var may := MayActFrom(reg, a.client, subject.audience);
    if !may {
      return Denied;
    }
    if subject.loginMethod == ASSISTANT_WAY && subject.clientID != "" && !a.live {
      return Denied;
    }
    var scopes := AllowedScopes(reg, a.client, a.audience, requested);
    if !scopes.Granted? {
      return if scopes.UnknownClient? then UnknownClient else Denied;
    }
    var kept := scopes.value;
    if subject.loginMethod == ASSISTANT_WAY {
      var levels := AssistantLevels(reg, a.client, a.audience);
      kept := NarrowForAssistant(kept, subject.scope, levels);
    }
    return Granted(Claims(subject.subject, [a.audience], Joined(kept), subject.loa, subject.loginMethod,
                          subject.serialNumber, subject.tenant, "", Actor(a.client, subject.act)));
  }

  // A chain of exchanges, each of the token the one before it made.
  function Chain(reg: Registry, first: Claims, asks: seq<Ask>): Answer<Claims> {
    if asks == [] then Granted(first)
    else
      var before := Chain(reg, first, asks[..|asks| - 1]);
      if before.Granted? then Exchanged(reg, before.value, asks[|asks| - 1]) else before
  }

  function Boxes(t: Claims): set<string> {
    set s | s in Fields(t.scope) && IsBox(s)
  }

  function Levels(t: Claims): set<string> {
    set s | s in Fields(t.scope) && IsLevel(s)
  }

  // The actors of a token, the latest first.
  function Actors(a: Actor): seq<string> {
    match a
    case Nobody => []
    case Actor(subject, prior) => [subject] + Actors(prior)
  }

  function Clients(asks: seq<Ask>): (r: seq<string>)
    ensures |r| == |asks|
  {
    if asks == [] then [] else [asks[|asks| - 1].client] + Clients(asks[..|asks| - 1])
  }

  /** An app's token is for the app's one audience, of the connection's person and
      tenant, acted for by its assistant; and carries the boxes it was issued for and
      no level. */
  lemma AppTokenHoldsItsBoxes(a: AppAsk)
    requires SignInOk(a.app) && a.app.aiApp && IssueApp(a).Some?
    ensures var t := IssueApp(a).value;
            && Fields(t.scope) == AppScopes(a)
            && Boxes(t) == (set s | s in a.asked && s in a.app.scopes && s in a.assistantBoxes) && Levels(t) == {}
            && t.subject == a.subject && t.tenant == a.tenant && t.serialNumber == ""
            && t.audience == [a.app.audience] && t.clientID == a.app.clientID
            && Actors(t.act) == [a.assistant] && t.loginMethod == "assistant" && t.loa == "low"
  {
    var scopes := AppScopes(a);
    forall s | s in scopes ensures IsScope(s) && IsBox(s) && !IsLevel(s) { ScopesArePlain(s); }
    ScopeListsSurvive(scopes);
  }

  // The client may act from one of the audiences: its own, or one its row names.
  predicate IsSent(reg: Registry, client: string, audiences: seq<string>) {
    && client in reg.clients && reg.clients[client].enabled
    && exists aud :: aud in audiences && aud != "" && (aud == client || aud in reg.clients[client].actFrom)
  }

  // What an exchange may carry, toward an audience the client was granted g for.
  predicate Carries(subject: Claims, requested: seq<string>, g: Grant, s: string) {
    && (if requested == [] then s in g.scopes else s in requested)
    && (subject.loginMethod == "assistant" ==>
          (IsBox(s) && s in Fields(subject.scope)) || (IsLevel(s) && s in g.assistantLevels))
  }

  // The client's grant toward the audience names the level for an assistant.
  predicate NamedForAssistant(reg: Registry, a: Ask, l: string) {
    a.client in reg.clients
    && exists g :: g in reg.clients[a.client].grants && g.audience == a.audience && l in g.assistantLevels
  }

  /** An exchange is granted exactly when the client was sent the token, may be acted
      for, was granted all it asks toward that audience, and, of an app's own token, its
      connection is live. */
  lemma GrantedExactly(reg: Registry, subject: Claims, a: Ask)
    requires Loaded(reg)
    ensures Exchanged(reg, subject, a).Granted? <==>
            && (a.service ==> subject.tenant != "") && IsSent(reg, a.client, subject.audience)
            && (subject.loginMethod == "assistant" && subject.clientID != "" ==> a.live)
            && exists g :: HasGrant(reg, a.client, a.audience, g) && forall s :: s in Fields(a.scope) ==> s in g.scopes
  {
    GivenExactly(reg, a.client, a.audience, Fields(a.scope), []);
  }

  /** What an exchange answers says what the token did, but for its audience and its
      latest actor; and carries exactly what it may: for an assistant, the boxes the
      token had and the levels its grant names for one. */
  lemma CarriesExactly(reg: Registry, subject: Claims, a: Ask, g: Grant)
    requires Loaded(reg) && Exchanged(reg, subject, a).Granted? && HasGrant(reg, a.client, a.audience, g)
    ensures var t := Exchanged(reg, subject, a).value;
            && t == subject.(audience := [a.audience], clientID := "", act := Actor(a.client, subject.act),
                             scope := t.scope)
            && forall s :: s in Fields(t.scope) <==> Carries(subject, Fields(a.scope), g, s)
  {
    var requested := Fields(a.scope);
    NoMoreThanGranted(reg, a.client, a.audience, requested);
    GrantTowardIsOne(reg.clients[a.client], g);
    var given := if requested == [] then g.scopes else requested;
    var kept := if subject.loginMethod == "assistant"
                then Narrowed(given, Fields(subject.scope), g.assistantLevels) else given;
    assert Exchanged(reg, subject, a).value.scope == Joined(kept);
    ScopeListsSurvive(kept);
  }

  // What one exchange of a token of an assistant's makes of it.
  lemma OneExchange(reg: Registry, subject: Claims, a: Ask)
    requires Loaded(reg) && subject.loginMethod == "assistant"
    ensures var r := Exchanged(reg, subject, a);
            r.Granted? ==>
              var t := r.value;
              && Boxes(t) <= Boxes(subject) && (forall s :: s in Fields(t.scope) ==> IsScope(s))
              && (forall l :: l in Levels(t) ==> NamedForAssistant(reg, a, l))
              && (subject.clientID != "" ==> a.live)
              && t == subject.(audience := [a.audience], clientID := "", act := Actor(a.client, subject.act),
                               scope := t.scope)
  {
    var r := Exchanged(reg, subject, a);
    if r.Granted? {
      GrantedExactly(reg, subject, a);
      var g :| HasGrant(reg, a.client, a.audience, g);
      CarriesExactly(reg, subject, a, g);
      forall s | s in Fields(r.value.scope) ensures IsScope(s) && !(IsBox(s) && IsLevel(s)) { ScopesArePlain(s); }
      forall l | l in Levels(r.value) ensures NamedForAssistant(reg, a, l) {
        assert Carries(subject, Fields(a.scope), g, l);
      }
    }
  }

  /** What no exchange of a chain changes; and who acts, every client in turn. */
  lemma {:induction false} ChainSays(reg: Registry, first: Claims, asks: seq<Ask>)
    requires Chain(reg, first, asks).Granted?
    ensures var t := Chain(reg, first, asks).value;
            && t.subject == first.subject && t.tenant == first.tenant && t.serialNumber == first.serialNumber
            && t.loginMethod == first.loginMethod && t.loa == first.loa
            && Actors(t.act) == Clients(asks) + Actors(first.act)
            && (asks != [] ==> t.audience == [asks[|asks| - 1].audience] && t.clientID == "")
    decreases |asks|
  {
    if asks != [] {
      var before := asks[..|asks| - 1];
      ChainSays(reg, first, before);
      var client := asks[|asks| - 1].client;
      assert [client] + (Clients(before) + Actors(first.act)) == ([client] + Clients(before)) + Actors(first.act);
    }
  }

  // Its boxes and levels are those it may have.
  predicate Shrunk(reg: Registry, first: Claims, asks: seq<Ask>, t: Claims) {
    && Boxes(t) <= Boxes(first)
    && (forall s :: s in Fields(t.scope) ==> IsScope(s))
    && (if asks == [] then Levels(t) == {}
        else && (forall l :: l in Levels(t) ==> NamedForAssistant(reg, asks[|asks| - 1], l))
             && (first.clientID != "" ==> asks[0].live))
  }

  lemma {:induction false} ChainShrinks(reg: Registry, first: Claims, asks: seq<Ask>)
    requires Loaded(reg) && first.loginMethod == "assistant" && Shrunk(reg, first, [], first)
    requires Chain(reg, first, asks).Granted?
    ensures Shrunk(reg, first, asks, Chain(reg, first, asks).value)
    decreases |asks|
  {
    if asks != [] {
      var before := asks[..|asks| - 1];
      ChainShrinks(reg, first, before);
      ChainSays(reg, first, before);
      OneExchange(reg, Chain(reg, first, before).value, asks[|asks| - 1]);
      if before != [] { assert before[0] == asks[0]; }
    }
  }

  /** Authority only shrinks. However many services a token is exchanged through, its
      boxes are among those of the app's token, its levels among those the last
      client's grant toward that audience names for an assistant, and it is of the same
      person, tenant, way and assurance. Who acts is every client in turn, the latest
      first and the assistant innermost. The app's token itself is exchanged only
      while its connection is live. */
  lemma AuthorityShrinks(reg: Registry, a: AppAsk, asks: seq<Ask>)
    requires Loaded(reg) && SignInOk(a.app) && a.app.aiApp && IssueApp(a).Some?
    requires Chain(reg, IssueApp(a).value, asks).Granted?
    ensures var first := IssueApp(a).value;
            var t := Chain(reg, first, asks).value;
            && Boxes(t) <= Boxes(first)
            && (forall s :: s in Fields(t.scope) ==> IsScope(s))
            && (if asks == [] then Levels(t) == {}
                else var last := asks[|asks| - 1];
                     && (forall l :: l in Levels(t) ==> NamedForAssistant(reg, last, l))
                     && t.audience == [last.audience] && t.clientID == "" && asks[0].live)
            && t.subject == first.subject && t.tenant == first.tenant && t.serialNumber == first.serialNumber
            && t.loginMethod == first.loginMethod && t.loa == first.loa
            && Actors(t.act) == Clients(asks) + [a.assistant]
  {
    var first := IssueApp(a).value;
    AppTokenHoldsItsBoxes(a);
    forall s | s in Fields(first.scope) ensures IsScope(s) { ScopesArePlain(s); }
    ChainSays(reg, first, asks);
    ChainShrinks(reg, first, asks);
    assert a.app.clientID != "";
  }

  lemma LastWasSentThat(reg: Registry, first: Claims, asks: seq<Ask>)
    requires Loaded(reg) && asks != [] && Chain(reg, first, asks).Granted?
    ensures var last := asks[|asks| - 1];
            && IsSent(reg, last.client, if |asks| == 1 then first.audience else [asks[|asks| - 2].audience])
            && (last.service ==> first.tenant != "")
  {
    var before := asks[..|asks| - 1];
    ChainSays(reg, first, before);
    GrantedExactly(reg, Chain(reg, first, before).value, asks[|asks| - 1]);
  }

  /** Each client of a chain was sent the token it exchanges: it is the audience of the
      token before, or its row names that audience. One that is sent a service's token
      acts only for a person of a tenant. */
  lemma {:induction false} EachWasSentThat(reg: Registry, first: Claims, asks: seq<Ask>, i: nat)
    requires Loaded(reg) && i < |asks| && Chain(reg, first, asks).Granted?
    ensures IsSent(reg, asks[i].client, if i == 0 then first.audience else [asks[i - 1].audience])
    ensures asks[i].service ==> first.tenant != ""
    decreases |asks|
  {
    if i < |asks| - 1 {
      EachWasSentThat(reg, first, asks[..|asks| - 1], i);
    } else {
      LastWasSentThat(reg, first, asks);
    }
  }
}
