/** A deployment's providers (upstream/set.go): what makes a set one whose entries
    can be told apart, and the name each keeps its people under. */
module ProviderSet {
  import opened StoreModel

  const CARD := "webEid"
  const CARD_PROVIDER := "webeid"

  datatype Provider = Provider(methods: seq<string>, identifier: string)

  datatype Entry = Entry(name: string, provider: Option<Provider>, returnPath: string, holdsStored: bool)

  // The entries in order, the key each keeps its people under, and whose each
  // method is.
  datatype Set = Set(entries: seq<Entry>, keys: seq<string>, byMethod: map<string, nat>)

  predicate IsPath(s: string) {
    s != "" && s[0] == '/'
  }

  predicate EntryOk(e: Entry) {
    && e.name != "" && e.provider.Some? && IsPath(e.returnPath)
    && Methods(e) != [] && MethodsOk(Methods(e))
  }

  // Each named once, and none the card's.
  predicate MethodsOk(ms: seq<string>) {
    CARD !in ms && forall i, j :: 0 <= i < j < |ms| ==> ms[i] != ms[j]
  }

  function Methods(e: Entry): seq<string> {
    if e.provider.Some? then e.provider.value.methods else []
  }

  function Identifier(e: Entry): string {
    if e.provider.Some? then e.provider.value.identifier else ""
  }

  predicate Apart(a: Entry, b: Entry) {
    a.name != b.name && a.returnPath != b.returnPath && forall m :: m in Methods(a) ==> m !in Methods(b)
  }

  predicate EntriesOk(es: seq<Entry>) {
    && (forall i :: 0 <= i < |es| ==> EntryOk(es[i]))
    && (forall i, j :: 0 <= i < j < |es| ==> Apart(es[i], es[j]) && !(es[i].holdsStored && es[j].holdsStored))
  }

  predicate HolderAt(es: seq<Entry>, h: nat) {
    h < |es| && es[h].holdsStored
  }

  predicate SharesHolder(es: seq<Entry>, h: nat, i: nat)
    requires h < |es| && i < |es|
  {
    i == h || (Identifier(es[i]) != "" && Identifier(es[i]) == Identifier(es[h]))
  }

  // Has something to keep its people under, and not what the card's are.
  predicate Keyed(es: seq<Entry>, h: nat, i: nat)
    requires i < |es|
  {
    Identifier(es[i]) != CARD_PROVIDER && (Identifier(es[i]) != "" || i == h)
  }

  /** A set whose entries can be told apart: each right, no two with a name, a path or
      a method in common, one holding the stored sign-ins, each with something to
      keep its people under, and none under what the card's are. */
  ghost predicate Acceptable(es: seq<Entry>) {
    && EntriesOk(es)
    && exists h :: HolderAt(es, h)
        && forall i :: 0 <= i < |es| ==> Keyed(es, h, i)
  }

  // The key an entry keeps its people under, the holder being h.
  function KeyOf(es: seq<Entry>, h: nat, i: nat): string
    requires h < |es| && i < |es|
  {
    if SharesHolder(es, h, i) then "" else Identifier(es[i])
  }

  // Whose each method of the first n entries is.
  predicate Assigns(es: seq<Entry>, byMethod: map<string, nat>, n: nat)
    requires n <= |es|
  {
    && (forall m, i :: 0 <= i < n && m in Methods(es[i]) ==> m in byMethod && byMethod[m] == i)
    && (forall m :: m in byMethod ==> byMethod[m] < n && m in Methods(es[byMethod[m]]))
  }

  // No method of entry i is an earlier one's.
  predicate MethodsOwn(es: seq<Entry>, i: nat)
    requires i < |es|
  {
    forall m, j :: 0 <= j < i && m in Methods(es[j]) ==> m !in Methods(es[i])
  }

  method AddMethods(es: seq<Entry>, i: nat, byMethod: map<string, nat>) returns (out: map<string, nat>, ok: bool)
    requires i < |es| && es[i].provider.Some? && Assigns(es, byMethod, i)
    ensures ok <==> MethodsOk(Methods(es[i])) && MethodsOwn(es, i)
    ensures ok ==> Assigns(es, out, i + 1)
  {
    var ms := es[i].provider.value.methods;
    out, ok := Claimed(ms, i, byMethod);
  }

  /** Each of the methods is made i's, unless one is taken, or the card's. */
  method Claimed(ms: seq<string>, i: nat, byMethod: map<string, nat>) returns (out: map<string, nat>, ok: bool)
    ensures ok <==> MethodsOk(ms) && forall m :: m in ms ==> m !in byMethod
    ensures ok ==> forall m :: m in out <==> m in byMethod || m in ms
    ensures ok ==> forall m :: m in out ==> out[m] == if m in byMethod then byMethod[m] else i
  {
    out := byMethod;
    for k := 0 to |ms|
      invariant forall m :: m in out <==> m in byMethod || m in ms[..k]
      invariant forall m :: m in ms[..k] ==> m !in byMethod
      invariant forall m :: m in out ==> out[m] == if m in byMethod then byMethod[m] else i
      invariant MethodsOk(ms[..k])
    {
      var m := ms[k];
      assert m in ms;
      if m == CARD || m in out {
        return out, false;
      }
      out := out[m := i];
      assert ms[..k + 1] == ms[..k] + [m];
    }
    assert ms[..|ms|] == ms;
    return out, true;
  }

  // No entry before i has the name or the path of entry i.
  predicate NewName(es: seq<Entry>, i: nat)
    requires i < |es|
  {
    forall j :: 0 <= j < i ==> es[j].name != es[i].name && es[j].returnPath != es[i].returnPath
  }

  // Entry i is right, and apart from those before it.
  predicate Joins(es: seq<Entry>, i: nat)
    requires i < |es|
  {
    && EntryOk(es[i]) && NewName(es, i) && MethodsOwn(es, i)
    && forall j :: 0 <= j < i ==> !(es[j].holdsStored && es[i].holdsStored)
  }

  lemma JoiningIsEnough(es: seq<Entry>)
    ensures EntriesOk(es) <==> forall i :: 0 <= i < |es| ==> Joins(es, i)
  {
    if forall i :: 0 <= i < |es| ==> Joins(es, i) {
      forall i | 0 <= i < |es| ensures EntryOk(es[i]) { assert Joins(es, i); }
      forall i, j | 0 <= i < j < |es| ensures Apart(es[i], es[j]) && !(es[i].holdsStored && es[j].holdsStored) {
        assert Joins(es, j);
      }
    }
    if EntriesOk(es) {
      forall i | 0 <= i < |es| ensures Joins(es, i) {
        assert forall j :: 0 <= j < i ==> Apart(es[j], es[i]) && !(es[j].holdsStored && es[i].holdsStored);
        assert EntryOk(es[i]) && NewName(es, i) && MethodsOwn(es, i);
      }
    }
  }

  // The names and paths of the first n entries.
  ghost predicate Seen(es: seq<Entry>, n: nat, names: set<string>, paths: set<string>)
    requires n <= |es|
  {
    && (forall s :: s in names <==> exists j :: 0 <= j < n && es[j].name == s)
    && (forall s :: s in paths <==> exists j :: 0 <= j < n && es[j].returnPath == s)
  }

  // Which of the first n entries holds the stored sign-ins.
  predicate Holds(es: seq<Entry>, n: nat, holder: Option<nat>)
    requires n <= |es|
  {
    if holder.Some? then HolderAt(es, holder.value) && holder.value < n
    else forall j :: 0 <= j < n ==> !es[j].holdsStored
  }

  method CheckEntry(es: seq<Entry>, i: nat, names: set<string>, paths: set<string>) returns (ok: bool)
    requires i < |es| && Seen(es, i, names, paths)
    ensures ok <==> && es[i].name != "" && es[i].provider.Some? && IsPath(es[i].returnPath) && Methods(es[i]) != []
                    && NewName(es, i)
  {
    var e := es[i];
    ok := !(e.name == "" || e.name in names || e.provider.None? || !IsPath(e.returnPath) || e.returnPath in paths
            || |e.provider.value.methods| == 0);
  }

  // What the loop knows after the first n entries.
  ghost predicate Read(
    es: seq<Entry>, n: nat, names: set<string>, paths: set<string>, byMethod: map<string, nat>, holder: Option<nat>)
    requires n <= |es|
  {
    && (forall j :: 0 <= j < n ==> Joins(es, j))
    && Seen(es, n, names, paths) && Assigns(es, byMethod, n) && Holds(es, n, holder)
  }

  lemma SeenNext(es: seq<Entry>, i: nat, names: set<string>, paths: set<string>)
    requires i < |es| && Seen(es, i, names, paths)
    ensures Seen(es, i + 1, names + {es[i].name}, paths + {es[i].returnPath})
  {}

  /** One entry more, with its methods made its own. */
  method ReadEntry(
    es: seq<Entry>, i: nat, names: set<string>, paths: set<string>, byMethod: map<string, nat>, holder: Option<nat>)
    returns (owners: map<string, nat>, held: Option<nat>, ok: bool)
    requires i < |es| && Read(es, i, names, paths, byMethod, holder)
    ensures ok <==> Joins(es, i)
    ensures ok ==> Read(es, i + 1, names + {es[i].name}, paths + {es[i].returnPath}, owners, held)
  {
    owners, held := byMethod, holder;
    ok := CheckEntry(es, i, names, paths);
    if !ok {
      return;
    }
    owners, ok := AddMethods(es, i, byMethod);
    if !ok || (es[i].holdsStored && holder.Some?) {
      return owners, holder, false;
    }
    if es[i].holdsStored {
      held := Some(i);
    }
    SeenNext(es, i, names, paths);
  }

  /** The entries one by one: whose each method is, and which holds the stored
      sign-ins. */
  method ReadEntries(es: seq<Entry>) returns (byMethod: map<string, nat>, holder: Option<nat>, ok: bool)
    ensures ok <==> forall i :: 0 <= i < |es| ==> Joins(es, i)
    ensures ok ==> Assigns(es, byMethod, |es|) && Holds(es, |es|, holder)
  {
    byMethod, holder := map[], None;
    var names, paths: set<string> := {}, {};
    for i := 0 to |es|
      invariant Read(es, i, names, paths, byMethod, holder)
    {
      byMethod, holder, ok := ReadEntry(es, i, names, paths, byMethod, holder);
      if !ok {
        return;
      }
      names, paths := names + {es[i].name}, paths + {es[i].returnPath};
    }
    return byMethod, holder, true;
  }

  method AssignKeys(es: seq<Entry>, h: nat) returns (keys: seq<string>, ok: bool)
    requires h < |es| && forall i :: 0 <= i < |es| ==> es[i].provider.Some?
    ensures ok <==> forall i :: 0 <= i < |es| ==> Keyed(es, h, i)
    ensures ok ==> |keys| == |es| && forall i :: 0 <= i < |es| ==> keys[i] == KeyOf(es, h, i)
  {
    keys := [];
    for i := 0 to |es|
      invariant |keys| == i && forall j :: 0 <= j < i ==> keys[j] == KeyOf(es, h, j)
      invariant forall j :: 0 <= j < i ==> Keyed(es, h, j)
    {
      var id := es[i].provider.value.identifier;
      if id == CARD_PROVIDER {
        assert !Keyed(es, h, i);
        return keys, false;
      }
      if i == h || (id != "" && id == Identifier(es[h])) {
        keys := keys + [""];
      } else if id == "" {
        assert !Keyed(es, h, i);
        return keys, false;
      } else {
        keys := keys + [id];
      }
    }
    return keys, true;
  }

  lemma OneHolder(es: seq<Entry>, h: nat, k: nat)
    requires EntriesOk(es) && HolderAt(es, h) && HolderAt(es, k)
    ensures h == k
  {}

  /** NewSet: a set exactly when it is acceptable. */
  method NewSet(es: seq<Entry>) returns (made: Option<Set>)
    ensures made.Some? <==> Acceptable(es)
    ensures made.Some? ==>
              && made.value.entries == es && Assigns(es, made.value.byMethod, |es|)
              && |made.value.keys| == |es|
              && forall h, i :: HolderAt(es, h) && 0 <= i < |es| ==> made.value.keys[i] == KeyOf(es, h, i)
  {
    if |es| == 0 {
      return None;
    }
    JoiningIsEnough(es);
    var byMethod, holder, ok := ReadEntries(es);
    if !ok || holder.None? {
      return None;
    }
    forall k | HolderAt(es, k) ensures k == holder.value { OneHolder(es, k, holder.value); }
    var keys, keyed := AssignKeys(es, holder.value);
    if !keyed {
      return None;
    }
    return Some(Set(es, keys, byMethod));
  }

  /** An accepted set tells people apart: exactly one entry holds the stored sign-ins,
      and keeps its people under no name, as they were before there were several; any
      other keeps its own under its identifier. So two entries keep their people under
      one key exactly when they are one entry or share an identifier; and no key is the
      card's. */
  lemma KeysTellPeopleApart(es: seq<Entry>, h: nat, i: nat, j: nat)
    requires Acceptable(es) && HolderAt(es, h) && i < |es| && j < |es|
    ensures es[j].holdsStored <==> j == h
    ensures KeyOf(es, h, i) == KeyOf(es, h, j) <==>
            i == j || (Identifier(es[i]) != "" && Identifier(es[i]) == Identifier(es[j]))
    ensures KeyOf(es, h, i) != CARD_PROVIDER
    ensures KeyOf(es, h, i) == if i == h || Identifier(es[i]) == Identifier(es[h]) then "" else Identifier(es[i])
  {
    var k :| HolderAt(es, k) && forall i :: 0 <= i < |es| ==> Keyed(es, k, i);
    OneHolder(es, h, k);
    assert Keyed(es, h, i) && Keyed(es, h, j);
  }

  /** A return path leads to one entry, and a name names one; each has a method to sign in
      by. */
  lemma PathsTellEntriesApart(es: seq<Entry>, i: nat, j: nat)
    requires Acceptable(es) && i < |es| && j < |es|
    ensures es[i].returnPath == es[j].returnPath || es[i].name == es[j].name ==> i == j
    ensures |es[i].returnPath| > 0 && es[i].returnPath[0] == '/' && es[i].name != "" && Methods(es[i]) != []
  {
    assert EntryOk(es[i]);
    if i < j {
      assert Apart(es[i], es[j]);
    } else if j < i {
      assert Apart(es[j], es[i]);
    }
  }

  /** And a method is one entry's alone. */
  lemma MethodsTellEntriesApart(es: seq<Entry>, byMethod: map<string, nat>, m: string, i: nat)
    requires Acceptable(es) && Assigns(es, byMethod, |es|) && i < |es|
    ensures m in Methods(es[i]) <==> m in byMethod && byMethod[m] == i
    ensures m != CARD || m !in byMethod
  {
    if m in byMethod {
      assert m in Methods(es[byMethod[m]]) && EntryOk(es[byMethod[m]]);
    }
  }
}
