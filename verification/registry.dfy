/** The registry of clients (registry/registry.go): what a document must hold to be
    loaded, and what a client may ask for. */
module Registry {
  import opened StoreModel
  import opened Words

  datatype Grant = Grant(audience: string, scopes: seq<string>, assistantLevels: seq<string>)

  datatype Client = Client(
    clientID: string, secretRef: string, enabled: bool, grants: seq<Grant>, actFrom: seq<string>)

  // restOk: what its type, claims and addresses must be, which is not modelled.
  datatype SignInClient = SignInClient(
    clientID: string, enabled: bool, aiApp: bool, audience: string, scopes: seq<string>, restOk: bool)

  datatype Registry = Registry(clients: map<string, Client>, signIns: map<string, SignInClient>)

  datatype Answer<T> = Granted(value: T) | UnknownClient | Denied

  // Scopes

  predicate HasPrefix(s: string, c: char) {
    s != "" && s[0] == c
  }

  predicate HasSuffix(s: string, c: char) {
    s != "" && s[|s| - 1] == c
  }

  // A box, service/feature:act.
  predicate IsBox(s: string) {
    var cut := Cut(s, ':');
    && cut.Some? && cut.value.1 != "" && '/' in cut.value.0
    && !HasPrefix(cut.value.0, '/') && !HasSuffix(cut.value.0, '/') && NoSpace(s)
  }

  // A level, group:level.
  predicate IsLevel(s: string) {
    var cut := Cut(s, ':');
    && cut.Some? && cut.value.0 != "" && cut.value.1 != "" && ':' !in cut.value.1
    && '/' !in s && NoSpace(s)
  }

  predicate IsScope(s: string) {
    IsBox(s) || IsLevel(s)
  }

  /** No scope is both a box and a level, and each is one word: so a list of them
      survives printing and parsing. */
  lemma ScopesArePlain(s: string)
    ensures !(IsBox(s) && IsLevel(s))
    ensures IsScope(s) ==> IsWord(s)
  {
    if IsBox(s) {
      var group := Cut(s, ':').value.0;
      var i :| 0 <= i < |group| && group[i] == '/';
      assert s[i] == '/';
    }
  }

  /** A level is two halves about its one colon, neither empty, with no slash or space
      anywhere; and a box has a slash inside what is before its first colon. */
  lemma LevelsAreHalves(group: string, level: string)
    requires ':' !in group
    ensures IsLevel(group + ":" + level) <==>
            && group != "" && level != "" && ':' !in level && '/' !in group + level
            && NoSpace(group) && NoSpace(level)
  {
    CutsBack(group, ':', level);
    Halves(group, level);
  }

  lemma BoxesAreHalves(name: string, act: string)
    requires ':' !in name
    ensures IsBox(name + ":" + act) <==>
            && name != "" && name[0] != '/' && name[|name| - 1] != '/' && '/' in name && act != ""
            && NoSpace(name) && NoSpace(act)
  {
    CutsBack(name, ':', act);
    Halves(name, act);
  }

  lemma Halves(a: string, b: string)
    ensures '/' in a + ":" + b <==> '/' in a + b
    ensures NoSpace(a + ":" + b) <==> NoSpace(a) && NoSpace(b)
  {
    var s := a + ":" + b;
    forall i | 0 <= i < |a| ensures s[i] == a[i] {}
    forall i | 0 <= i < |b| ensures s[|a| + 1 + i] == b[i] {}
    assert s[|a|] == ':';
    assert NoSpace(s) ==> NoSpace(b) by {
      if NoSpace(s) {
        forall i | 0 <= i < |b| ensures !IsSpace(b[i]) { assert !IsSpace(s[|a| + 1 + i]); }
      }
    }
    if '/' in b {
      var i :| 0 <= i < |b| && b[i] == '/';
      assert s[|a| + 1 + i] == '/';
    }
    if '/' in a {
      var i :| 0 <= i < |a| && a[i] == '/';
      assert s[i] == '/';
    }
  }

  lemma ScopeListsSurvive(scopes: seq<string>)
    requires forall s :: s in scopes ==> IsScope(s)
    ensures Fields(Joined(scopes)) == scopes
  {
    forall s | s in scopes ensures IsWord(s) { ScopesArePlain(s); }
    PrintsAndParses(scopes);
  }

  // What a row must be

  predicate GrantOk(g: Grant) {
    && g.audience != ""
    && (forall s :: s in g.scopes ==> IsScope(s))
    && (forall s :: s in g.assistantLevels ==> IsLevel(s) && s in g.scopes)
  }

  predicate ClientOk(c: Client) {
    && c.clientID != "" && (c.enabled ==> c.secretRef != "")
    && (forall i :: 0 <= i < |c.grants| ==> GrantOk(c.grants[i]))
    && (forall i, j :: 0 <= i < j < |c.grants| ==> c.grants[i].audience != c.grants[j].audience)
    && "" !in c.actFrom
  }

  predicate SignInOk(c: SignInClient) {
    && c.clientID != "" && c.audience != "" && c.restOk
    && (if c.aiApp then c.scopes != [] && forall s :: s in c.scopes ==> IsBox(s) else c.scopes == [])
  }

  method ValidateGrant(c: Client, i: nat) returns (ok: bool)
    requires i < |c.grants|
    ensures ok <==> GrantOk(c.grants[i]) && forall j :: 0 <= j < i ==> c.grants[j].audience != c.grants[i].audience
  {
    var g := c.grants[i];
    if g.audience == "" || exists j :: 0 <= j < i && c.grants[j].audience == g.audience {
      return false;
    }
    for k := 0 to |g.scopes|
      invariant forall j :: 0 <= j < k ==> IsScope(g.scopes[j])
    {
      assert g.scopes[k] in g.scopes;
      if !IsBox(g.scopes[k]) && !IsLevel(g.scopes[k]) {
        return false;
      }
    }
    for k := 0 to |g.assistantLevels|
      invariant forall j :: 0 <= j < k ==> IsLevel(g.assistantLevels[j]) && g.assistantLevels[j] in g.scopes
    {
      assert g.assistantLevels[k] in g.assistantLevels;
      if !IsLevel(g.assistantLevels[k]) || g.assistantLevels[k] !in g.scopes {
        return false;
      }
    }
    return true;
  }

  method ValidateClient(c: Client) returns (ok: bool)
    ensures ok <==> ClientOk(c)
  {
    if c.clientID == "" || (c.enabled && c.secretRef == "") {
      return false;
    }
    for i := 0 to |c.grants|
      invariant forall j :: 0 <= j < i ==> GrantOk(c.grants[j])
      invariant forall j, k :: 0 <= j < k < i ==> c.grants[j].audience != c.grants[k].audience
    {
      var good := ValidateGrant(c, i);
      if !good {
        return false;
      }
    }
    return "" !in c.actFrom;
  }

  method ValidateSignInClient(c: SignInClient) returns (ok: bool)
    ensures ok <==> SignInOk(c)
  {
    if c.clientID == "" || c.audience == "" || !c.restOk {
      return false;
    }
    if !c.aiApp {
      return c.scopes == [];
    }
    if |c.scopes| == 0 {
      return false;
    }
    for k := 0 to |c.scopes|
      invariant forall j :: 0 <= j < k ==> IsBox(c.scopes[j])
    {
      if !IsBox(c.scopes[k]) {
        return false;
      }
    }
    return true;
  }

  // Loading a document

  predicate IsAudience(services: seq<Client>, signIns: seq<SignInClient>, a: string) {
    || (exists i :: 0 <= i < |signIns| && signIns[i].audience == a)
    || (exists i, j :: 0 <= i < |services| && 0 <= j < |services[i].grants| && services[i].grants[j].audience == a)
  }

  predicate ServicesOk(services: seq<Client>) {
    && (forall i :: 0 <= i < |services| ==> ClientOk(services[i]))
    && (forall i, j :: 0 <= i < j < |services| ==> services[i].clientID != services[j].clientID)
  }

  predicate SignInsOk(services: seq<Client>, signIns: seq<SignInClient>) {
    && (forall i :: 0 <= i < |signIns| ==> SignInOk(signIns[i]))
    && (forall i, j :: 0 <= i < j < |signIns| ==> signIns[i].clientID != signIns[j].clientID)
    && (forall i, j :: 0 <= i < |signIns| && 0 <= j < |services| ==> signIns[i].clientID != services[j].clientID)
  }

  /** A document is loaded when every row is right, every id is one row's alone, and
      no sign-in client's id is an audience, which its ID tokens would open. */
  predicate DocumentOk(services: seq<Client>, signIns: seq<SignInClient>) {
    && ServicesOk(services) && SignInsOk(services, signIns)
    && (forall i :: 0 <= i < |signIns| ==> !IsAudience(services, signIns, signIns[i].clientID))
  }

  predicate HoldsServices(m: map<string, Client>, services: seq<Client>) {
    && (forall i :: 0 <= i < |services| ==> services[i].clientID in m && m[services[i].clientID] == services[i])
    && (forall id :: id in m ==> m[id] in services && m[id].clientID == id)
  }

  predicate HoldsSignIns(m: map<string, SignInClient>, signIns: seq<SignInClient>) {
    && (forall i :: 0 <= i < |signIns| ==> signIns[i].clientID in m && m[signIns[i].clientID] == signIns[i])
    && (forall id :: id in m ==> m[id] in signIns && m[id].clientID == id)
  }

  method LoadServices(services: seq<Client>) returns (m: map<string, Client>, ok: bool)
    ensures ok <==> ServicesOk(services)
    ensures ok ==> HoldsServices(m, services)
  {
    m := map[];
    for i := 0 to |services|
      invariant ServicesOk(services[..i]) && HoldsServices(m, services[..i])
    {
      var c := services[i];
      var good := ValidateClient(c);
      if !good || c.clientID in m {
        return m, false;
      }
      m := m[c.clientID := c];
      assert services[..i + 1] == services[..i] + [c];
    }
    assert services[..|services|] == services;
    return m, true;
  }

  method LoadSignIns(services: seq<Client>, clients: map<string, Client>, signIns: seq<SignInClient>)
    returns (m: map<string, SignInClient>, ok: bool)
    requires HoldsServices(clients, services)
    ensures ok <==> SignInsOk(services, signIns)
    ensures ok ==> HoldsSignIns(m, signIns)
  {
    m := map[];
    for i := 0 to |signIns|
      invariant SignInsOk(services, signIns[..i]) && HoldsSignIns(m, signIns[..i])
    {
      var c := signIns[i];
      var good := ValidateSignInClient(c);
      if !good || c.clientID in m || c.clientID in clients {
        return m, false;
      }
      m := m[c.clientID := c];
      assert signIns[..i + 1] == signIns[..i] + [c];
    }
    assert signIns[..|signIns|] == signIns;
    return m, true;
  }

  method Audiences(services: seq<Client>, signIns: seq<SignInClient>) returns (audiences: set<string>)
    ensures forall a :: a in audiences <==> IsAudience(services, signIns, a)
  {
    audiences := {};
    for i := 0 to |signIns|
      invariant forall a :: a in audiences <==> IsAudience([], signIns[..i], a)
    {
      audiences := audiences + {signIns[i].audience};
      assert signIns[..i + 1] == signIns[..i] + [signIns[i]];
    }
    assert signIns[..|signIns|] == signIns;
    for i := 0 to |services|
      invariant forall a :: a in audiences <==> IsAudience(services[..i], signIns, a)
    {
      var named := set j | 0 <= j < |services[i].grants| :: services[i].grants[j].audience;
      audiences := audiences + named;
      assert services[..i + 1] == services[..i] + [services[i]];
    }
    assert services[..|services|] == services;
  }

  // Every row is right and kept under its own id, as Load leaves them.
  predicate Loaded(reg: Registry) {
    && (forall id :: id in reg.clients ==> ClientOk(reg.clients[id]) && reg.clients[id].clientID == id)
    && (forall id :: id in reg.signIns ==> SignInOk(reg.signIns[id]) && reg.signIns[id].clientID == id)
  }

  lemma LoadLeavesRowsRight(services: seq<Client>, signIns: seq<SignInClient>, reg: Registry)
    requires DocumentOk(services, signIns)
    requires HoldsServices(reg.clients, services) && HoldsSignIns(reg.signIns, signIns)
    ensures Loaded(reg)
  {
    forall id | id in reg.clients ensures ClientOk(reg.clients[id]) {
      var i :| 0 <= i < |services| && services[i] == reg.clients[id];
    }
    forall id | id in reg.signIns ensures SignInOk(reg.signIns[id]) {
      var i :| 0 <= i < |signIns| && signIns[i] == reg.signIns[id];
    }
  }

  /** Load: a document right in every row, and nothing else. */
  method Load(services: seq<Client>, signIns: seq<SignInClient>) returns (reg: Option<Registry>)
    ensures reg.Some? <==> DocumentOk(services, signIns)
    ensures reg.Some? ==> HoldsServices(reg.value.clients, services) && HoldsSignIns(reg.value.signIns, signIns)
    ensures reg.Some? ==> Loaded(reg.value)
  {
    var clients, ok := LoadServices(services);
    if !ok {
      return None;
    }
    var rows;
    rows, ok := LoadSignIns(services, clients, signIns);
    if !ok {
      return None;
    }
    var audiences := Audiences(services, signIns);
    for i := 0 to |signIns|
      invariant forall j :: 0 <= j < i ==> !IsAudience(services, signIns, signIns[j].clientID)
    {
      if signIns[i].clientID in audiences {
        return None;
      }
    }
    LoadLeavesRowsRight(services, signIns, Registry(clients, rows));
    return Some(Registry(clients, rows));
  }

  // What a client may ask for

  predicate Enabled(reg: Registry, id: string) {
    id in reg.clients && reg.clients[id].enabled
  }

  // A client's grant toward an audience: the first.
  function GrantTo(grants: seq<Grant>, audience: string): (r: Option<Grant>)
    ensures r.Some? ==> r.value in grants && r.value.audience == audience
    ensures r.None? ==> forall g :: g in grants ==> g.audience != audience
  {
    if grants == [] then None
    else if grants[0].audience == audience then Some(grants[0])
    else GrantTo(grants[1..], audience)
  }

  function ScopesFor(reg: Registry, id: string, audience: string, requested: seq<string>): Answer<seq<string>> {
    if !Enabled(reg, id) then UnknownClient
    else
      var grant := GrantTo(reg.clients[id].grants, audience);
      if grant.None? then Denied
      else if requested == [] then Granted(grant.value.scopes)
      else if forall s :: s in requested ==> s in grant.value.scopes then Granted(requested)
      else Denied
  }

  function LevelsFor(reg: Registry, id: string, audience: string): seq<string> {
    if !Enabled(reg, id) then []
    else
      var grant := GrantTo(reg.clients[id].grants, audience);
      if grant.None? then [] else grant.value.assistantLevels
  }

  predicate ActsFrom(reg: Registry, id: string, audiences: seq<string>) {
    && Enabled(reg, id)
    && exists a :: a in audiences && a != "" && (a == reg.clients[id].clientID || a in reg.clients[id].actFrom)
  }

  method AllowedScopes(reg: Registry, id: string, audience: string, requested: seq<string>)
    returns (answer: Answer<seq<string>>)
    ensures answer == ScopesFor(reg, id, audience, requested)
  {
    if id !in reg.clients || !reg.clients[id].enabled {
      return UnknownClient;
    }
    var grants := reg.clients[id].grants;
    var grant: Option<Grant> := None;
    for i := 0 to |grants|
      invariant grant.None? && GrantTo(grants, audience) == GrantTo(grants[i..], audience)
    {
      if grants[i].audience == audience {
        grant := Some(grants[i]);
        break;
      }
    }
    if grant.None? {
      return Denied;
    }
    var allowed := set s | s in grant.value.scopes;
    if requested == [] {
      return Granted(grant.value.scopes);
    }
    var out := [];
    for i := 0 to |requested|
      invariant out == requested[..i] && forall s :: s in out ==> s in grant.value.scopes
    {
      assert requested[i] in requested;
      if requested[i] !in allowed {
        return Denied;
      }
      out := out + [requested[i]];
    }
    assert requested[..|requested|] == requested;
    return Granted(out);
  }

  method AssistantLevels(reg: Registry, id: string, audience: string) returns (levels: seq<string>)
    ensures levels == LevelsFor(reg, id, audience)
  {
    if id !in reg.clients || !reg.clients[id].enabled {
      return [];
    }
    var grants := reg.clients[id].grants;
    for i := 0 to |grants|
      invariant GrantTo(grants, audience) == GrantTo(grants[i..], audience)
    {
      if grants[i].audience == audience {
        return grants[i].assistantLevels;
      }
    }
    return [];
  }

  method MayActFrom(reg: Registry, id: string, audiences: seq<string>) returns (may: bool)
    ensures may <==> ActsFrom(reg, id, audiences)
  {
    if id !in reg.clients || !reg.clients[id].enabled {
      return false;
    }
    var c := reg.clients[id];
    for i := 0 to |audiences|
      invariant forall j :: 0 <= j < i ==>
                              audiences[j] == "" || (audiences[j] != c.clientID && audiences[j] !in c.actFrom)
    {
      var aud := audiences[i];
      if aud != "" && (aud == c.clientID || aud in c.actFrom) {
        assert aud in audiences;
        return true;
      }
    }
    return false;
  }

  lemma GrantTowardIsOne(c: Client, g: Grant)
    requires ClientOk(c) && g in c.grants
    ensures GrantTo(c.grants, g.audience) == Some(g)
  {
    var grant := GrantTo(c.grants, g.audience);
    assert grant.Some?;
    var i :| 0 <= i < |c.grants| && c.grants[i] == g;
    var j :| 0 <= j < |c.grants| && c.grants[j] == grant.value;
    assert !(i < j) && !(j < i);
  }

  // The client may ask, and this is what it was granted toward the audience.
  predicate HasGrant(reg: Registry, id: string, audience: string, g: Grant) {
    && id in reg.clients && reg.clients[id].enabled && g in reg.clients[id].grants && g.audience == audience
  }

  /** A client is given exactly what it was granted toward that audience: the whole
      grant when it asks for nothing, what it asks for when all of that is in it; and is
      refused when it is not, when there is no grant, or it is unknown or disabled. */
  lemma GivenExactly(reg: Registry, id: string, audience: string, requested: seq<string>, scopes: seq<string>)
    requires Loaded(reg)
    ensures ScopesFor(reg, id, audience, requested) == Granted(scopes) <==>
            exists g :: HasGrant(reg, id, audience, g) && (forall s :: s in requested ==> s in g.scopes)
                        && scopes == if requested == [] then g.scopes else requested
    ensures ScopesFor(reg, id, audience, requested).Granted? <==>
            exists g :: HasGrant(reg, id, audience, g) && forall s :: s in requested ==> s in g.scopes
    ensures ScopesFor(reg, id, audience, requested).UnknownClient? <==>
            !(id in reg.clients && reg.clients[id].enabled)
  {
    if Enabled(reg, id) {
      forall g | HasGrant(reg, id, audience, g) ensures GrantTo(reg.clients[id].grants, audience) == Some(g) {
        GrantTowardIsOne(reg.clients[id], g);
      }
      var grant := GrantTo(reg.clients[id].grants, audience);
      if grant.Some? { assert HasGrant(reg, id, audience, grant.value); }
    }
  }

  /** A level is an assistant's exactly where the client's grant toward the audience
      names it for one; and what it names there is among the grant's scopes. */
  lemma LevelsExactly(reg: Registry, id: string, audience: string, l: string)
    requires Loaded(reg)
    ensures l in LevelsFor(reg, id, audience) <==>
            exists g :: HasGrant(reg, id, audience, g) && l in g.assistantLevels
    ensures l in LevelsFor(reg, id, audience) ==>
              IsLevel(l) && exists g :: HasGrant(reg, id, audience, g) && l in g.scopes
  {
    if Enabled(reg, id) {
      forall g | HasGrant(reg, id, audience, g) ensures GrantTo(reg.clients[id].grants, audience) == Some(g) {
        GrantTowardIsOne(reg.clients[id], g);
      }
      var grant := GrantTo(reg.clients[id].grants, audience);
      if grant.Some? {
        assert HasGrant(reg, id, audience, grant.value);
        var i :| 0 <= i < |reg.clients[id].grants| && reg.clients[id].grants[i] == grant.value;
        assert GrantOk(reg.clients[id].grants[i]);
      }
    }
  }

  /** A loaded registry's ids open nothing but themselves: no id is a service's and a
      sign-in client's, and no sign-in client's is an audience tokens are made for. No
      service acts from an audience with no name, or is enabled with no secret. */
  lemma IdsOpenNothing(services: seq<Client>, signIns: seq<SignInClient>, reg: Registry, id: string)
    requires DocumentOk(services, signIns) && id in reg.signIns
    requires HoldsServices(reg.clients, services) && HoldsSignIns(reg.signIns, signIns)
    ensures id !in reg.clients
    ensures forall other :: other in reg.signIns ==> reg.signIns[other].audience != id
    ensures forall other, g :: other in reg.clients && g in reg.clients[other].grants ==> g.audience != id
    ensures forall other :: other in reg.clients ==>
              var c := reg.clients[other]; "" !in c.actFrom && (c.enabled ==> c.secretRef != "")
  {
    forall other | other in reg.clients ensures ClientOk(reg.clients[other]) {
      var j :| 0 <= j < |services| && services[j] == reg.clients[other];
    }
    var i :| 0 <= i < |signIns| && signIns[i] == reg.signIns[id];
    assert !IsAudience(services, signIns, signIns[i].clientID);
    assert forall j :: 0 <= j < |services| ==> services[j].clientID != id;
    forall other | other in reg.signIns ensures reg.signIns[other].audience != id {
      var j :| 0 <= j < |signIns| && signIns[j] == reg.signIns[other];
    }
    forall other, g | other in reg.clients && g in reg.clients[other].grants ensures g.audience != id {
      var j :| 0 <= j < |services| && services[j] == reg.clients[other];
      var k :| 0 <= k < |services[j].grants| && services[j].grants[k] == g;
    }
  }

  /** What a client is given it was granted toward that audience, and when it asked,
      it is what it asked for, whole. */
  lemma NoMoreThanGranted(reg: Registry, id: string, audience: string, requested: seq<string>)
    requires Loaded(reg)
    ensures var answer := ScopesFor(reg, id, audience, requested);
            answer.Granted? ==>
              && (exists g :: g in reg.clients[id].grants && g.audience == audience
                              && forall s :: s in answer.value ==> s in g.scopes && IsScope(s))
              && (requested != [] ==> answer.value == requested)
    ensures forall l :: l in LevelsFor(reg, id, audience) ==> IsLevel(l)
  {
    if Enabled(reg, id) {
      var grants := reg.clients[id].grants;
      var grant := GrantTo(grants, audience);
      if grant.Some? {
        var i :| 0 <= i < |grants| && grants[i] == grant.value;
        assert GrantOk(grants[i]);
      }
    }
  }
}
