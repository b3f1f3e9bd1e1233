/** Reading a provider's claims by a vocabulary (identity/identity.go): tokens looked
    for in one lower-cased line of text, the longest first. `lower` is the lower case
    of a character. */
module Vocabulary {
  import opened StoreModel

  type Case = char -> char

  // Only the space is a space in lower case.
  ghost predicate KeepsSpaces(lower: Case) {
    forall c :: lower(c) == ' ' <==> c == ' '
  }

  function Lower(lower: Case, s: string): (r: string)
    ensures |r| == |s| && forall i :: 0 <= i < |s| ==> r[i] == lower(s[i])
  {
    if s == "" then "" else [lower(s[0])] + Lower(lower, s[1..])
  }

  predicate OccursAt(text: string, k: string, i: int) {
    0 <= i <= |text| - |k| && text[i..i + |k|] == k
  }

  predicate Contains(text: string, k: string) {
    exists i :: 0 <= i <= |text| && OccursAt(text, k, i)
  }

  // The order tokens are tried in: by length in bytes, longest first, then by text.

  function Width(c: char): nat {
    if c < '\U{80}' then 1 else if c < '\U{800}' then 2 else if c < '\U{10000}' then 3 else 4
  }

  function Size(s: string): nat {
    if s == "" then 0 else Width(s[0]) + Size(s[1..])
  }

  predicate Less(a: string, b: string) {
    b != "" && (a == "" || a[0] < b[0] || (a[0] == b[0] && Less(a[1..], b[1..])))
  }

  predicate Before(a: string, b: string) {
    Size(a) > Size(b) || (Size(a) == Size(b) && Less(a, b))
  }

  lemma {:induction false} LessIsTotal(a: string, b: string)
    ensures !(Less(a, b) && Less(b, a)) && (Less(a, b) || Less(b, a) || a == b) && !Less(a, a)
  {
    if a != "" && b != "" {
      LessIsTotal(a[1..], b[1..]);
      LessIsTotal(a[1..], a[1..]);
      assert a == [a[0]] + a[1..] && b == [b[0]] + b[1..];
    } else if a != "" {
      LessIsTotal(a[1..], a[1..]);
    }
  }

  lemma {:induction false} LessGoesOn(a: string, b: string, c: string)
    requires Less(a, b) && Less(b, c)
    ensures Less(a, c)
  {
    if a != "" && a[0] == b[0] == c[0] { LessGoesOn(a[1..], b[1..], c[1..]); }
  }

  // No later token is to be tried before an earlier one.
  predicate Ordered(keys: seq<string>) {
    forall i, j :: 0 <= i < j < |keys| ==> !Before(keys[j], keys[i])
  }

  lemma NotBeforeGoesOn(a: string, b: string, c: string)
    requires !Before(b, a) && !Before(c, b)
    ensures !Before(c, a)
  {
    LessIsTotal(a, b);
    LessIsTotal(b, c);
    LessIsTotal(a, c);
    if Less(a, b) && Less(b, c) { LessGoesOn(a, b, c); }
  }

  lemma InItsPlace(a: seq<string>, k: string, b: seq<string>)
    requires Ordered(a + b) && (a != [] ==> !Before(k, a[|a| - 1])) && forall j :: 0 <= j < |b| ==> Before(k, b[j])
    ensures Ordered(a + [k] + b)
  {
    var keys, out := a + b, a + [k] + b;
    forall j | 0 <= j < |a| ensures !Before(k, a[j]) {
      if j < |a| - 1 {
        assert keys[j] == a[j] && keys[|a| - 1] == a[|a| - 1];
        NotBeforeGoesOn(a[j], a[|a| - 1], k);
      }
    }
    forall j | 0 <= j < |b| ensures !Before(b[j], k) { LessIsTotal(k, b[j]); }
    forall i, j | 0 <= i < j < |out| ensures !Before(out[j], out[i]) {
      if i != |a| && j != |a| {
        var p, q := if i < |a| then i else i - 1, if j < |a| then j else j - 1;
        assert keys[p] == out[i] && keys[q] == out[j];
      }
    }
  }

  /** k put into its place among tokens in order. */
  method Insert(keys: seq<string>, k: string) returns (out: seq<string>)
    requires Ordered(keys)
    ensures Ordered(out) && multiset(out) == multiset(keys) + multiset{k}
    ensures forall t :: t in out <==> t in keys || t == k
  {
    var i := |keys|;
    while 0 < i && Before(k, keys[i - 1])
      invariant 0 <= i <= |keys|
      invariant forall j :: i <= j < |keys| ==> Before(k, keys[j])
    {
      i := i - 1;
    }
    out := keys[..i] + [k] + keys[i..];
    assert keys == keys[..i] + keys[i..];
    InItsPlace(keys[..i], k, keys[i..]);
  }

  // Indexing a vocabulary

  // What each lower-cased token means, when the tokens are come upon in `order`: of
  // two alike but for case, the later.
  function Meanings(lower: Case, policy: map<string, string>, order: seq<string>): map<string, string>
    requires forall k :: k in order ==> k in policy
  {
    if order == [] then map[]
    else
      var k := order[|order| - 1];
      Meanings(lower, policy, order[..|order| - 1])[Lower(lower, k) := policy[k]]
  }

  // A walk over the vocabulary, each token once.
  ghost predicate Walks(policy: map<string, string>, order: seq<string>) {
    && (forall k :: k in order <==> k in policy)
    && (forall i, j :: 0 <= i < j < |order| ==> order[i] != order[j])
  }

  predicate IsLowerOf(lower: Case, tokens: seq<string>, t: string) {
    exists k :: k in tokens && Lower(lower, k) == t
  }

  /** indexPolicy: the tokens lower-cased, in order, and what they mean. */
  method IndexPolicy(lower: Case, policy: map<string, string>, order: seq<string>)
    returns (meanings: map<string, string>, keys: seq<string>)
    requires Walks(policy, order)
    ensures meanings == Meanings(lower, policy, order) && Ordered(keys)
    ensures forall t :: t in keys <==> exists k :: k in policy && Lower(lower, k) == t
  {
    meanings, keys := map[], [];
    for i := 0 to |order|
      invariant meanings == Meanings(lower, policy, order[..i]) && Ordered(keys)
      invariant forall t :: t in keys <==> IsLowerOf(lower, order[..i], t)
    {
      var k := order[i];
      var lk := Lower(lower, k);
      meanings := meanings[lk := policy[k]];
      keys := Insert(keys, lk);
      assert order[..i + 1] == order[..i] + [k];
    }
    assert order[..|order|] == order;
  }

  // Matching

  function Haystack(lower: Case, acr: string, amr: seq<string>): string {
    if amr == [] then Lower(lower, acr)
    else Haystack(lower, acr, amr[..|amr| - 1]) + " " + Lower(lower, amr[|amr| - 1])
  }

  function FirstIn(keys: seq<string>, hay: string): (r: Option<string>)
    ensures r.Some? ==> r.value in keys && Contains(hay, r.value)
    ensures r.None? ==> forall k :: k in keys ==> !Contains(hay, k)
  {
    if keys == [] then None
    else if Contains(hay, keys[0]) then Some(keys[0])
    else FirstIn(keys[1..], hay)
  }

  function Meant(found: Option<string>, meanings: map<string, string>, def: string): string
    requires found.Some? ==> found.value in meanings
  {
    if found.Some? then meanings[found.value] else def
  }

  method MatchPolicy(
    lower: Case, keys: seq<string>, meanings: map<string, string>, def: string, acr: string, amr: seq<string>)
    returns (r: string)
    requires forall k :: k in keys ==> k in meanings
    ensures r == Meant(FirstIn(keys, Haystack(lower, acr, amr)), meanings, def)
  {
    var hay := Lower(lower, acr);
    for i := 0 to |amr|
      invariant hay == Haystack(lower, acr, amr[..i])
    {
      assert amr[..i + 1][..i] == amr[..i];
      hay := hay + " " + Lower(lower, amr[i]);
    }
    assert amr[..|amr|] == amr;
    for i := 0 to |keys|
      invariant FirstIn(keys, hay) == FirstIn(keys[i..], hay)
    {
      if Contains(hay, keys[i]) {
        return meanings[keys[i]];
      }
    }
    return def;
  }

  /** MethodFor: with no default, and of a value that says something. */
  method MethodFor(lower: Case, keys: seq<string>, meanings: map<string, string>, acr: string)
    returns (r: Option<string>)
    requires forall k :: k in keys ==> k in meanings
    ensures r.Some? <==> acr != "" && exists k :: k in keys && Contains(Lower(lower, acr), k)
    ensures r.Some? ==> r.value == Meant(FirstIn(keys, Lower(lower, acr)), meanings, "")
  {
    var hay := Lower(lower, acr);
    if hay == "" {
      return None;
    }
    for i := 0 to |keys|
      invariant FirstIn(keys, hay) == FirstIn(keys[i..], hay)
    {
      if Contains(hay, keys[i]) {
        assert keys[i] in keys;
        return Some(meanings[keys[i]]);
      }
    }
    return None;
  }

  // What the result is, whatever the order of anything

  // A claim holds the token, in whatever case.
  predicate Carries(lower: Case, acr: string, amr: seq<string>, k: string) {
    || Contains(Lower(lower, acr), Lower(lower, k))
    || exists m :: m in amr && Contains(Lower(lower, m), Lower(lower, k))
  }

  // Tokens alike but for case mean the same.
  ghost predicate OneMeaning(lower: Case, policy: map<string, string>) {
    forall j, k :: j in policy && k in policy && Lower(lower, j) == Lower(lower, k) ==> policy[j] == policy[k]
  }

  /** Tokens without spaces, and of one meaning where they differ only in case. That
      neither can be done without: TokensAreFoundInClaims, MeaningsAgreeOnEveryWalk. */
  ghost predicate Plain(lower: Case, policy: map<string, string>) {
    (forall k :: k in policy ==> ' ' !in k) && OneMeaning(lower, policy)
  }

  // The token a claim carries that is to be tried before any other one does.
  ghost predicate IsBest(lower: Case, policy: map<string, string>, acr: string, amr: seq<string>, k: string) {
    && k in policy && Carries(lower, acr, amr, k)
    && forall j :: j in policy && Carries(lower, acr, amr, j) ==> !Before(Lower(lower, j), Lower(lower, k))
  }

  /** The value of the longest, then alphabetically first, token that some claim
      carries; else the default. */
  ghost predicate Reads(
    lower: Case, policy: map<string, string>, def: string, acr: string, amr: seq<string>, r: string)
  {
    if exists k :: k in policy && Carries(lower, acr, amr, k)
    then exists k :: IsBest(lower, policy, acr, amr, k) && r == policy[k]
    else r == def
  }

  lemma PartIsIn(a: string, before: string, after: string, k: string)
    requires Contains(a, k)
    ensures Contains(before + a + after, k)
  {
    var t := before + a + after;
    var i :| 0 <= i <= |a| && OccursAt(a, k, i);
    var j := |before| + i;
    assert t[j..j + |k|] == a[i..i + |k|];
    assert OccursAt(t, k, j);
  }

  lemma SpaceInside(text: string, k: string, i: int, p: int)
    requires OccursAt(text, k, i) && i <= p < i + |k| && text[p] == ' '
    ensures ' ' in k
  {
    assert text[i..i + |k|][p - i] == text[p];
  }

  /** A token without spaces is not found across a space. */
  lemma NotAcross(a: string, b: string, k: string)
    requires ' ' !in k
    ensures Contains(a + " " + b, k) <==> Contains(a, k) || Contains(b, k)
  {
    var t := a + " " + b;
    if Contains(t, k) {
      var i :| 0 <= i <= |t| && OccursAt(t, k, i);
      if i + |k| <= |a| {
        assert a[i..i + |k|] == t[i..i + |k|];
        assert OccursAt(a, k, i);
      } else if |a| < i {
        var j := i - |a| - 1;
        assert b == t[|a| + 1..] && t[|a| + 1..][j..j + |k|] == t[i..i + |k|];
        assert OccursAt(b, k, j);
      } else {
        SpaceInside(t, k, i, |a|);
      }
    }
    if Contains(a, k) {
      PartIsIn(a, "", " " + b, k);
      assert "" + a + (" " + b) == t;
    }
    if Contains(b, k) {
      PartIsIn(b, a + " ", "", k);
      assert a + " " + b + "" == t;
    }
  }

  lemma {:induction false} FoundInSomeClaim(lower: Case, acr: string, amr: seq<string>, k: string)
    requires KeepsSpaces(lower) && ' ' !in k
    ensures Contains(Haystack(lower, acr, amr), Lower(lower, k)) <==> Carries(lower, acr, amr, k)
    decreases |amr|
  {
    if amr != [] {
      var rest, last := amr[..|amr| - 1], amr[|amr| - 1];
      assert ' ' !in Lower(lower, k);
      NotAcross(Haystack(lower, acr, rest), Lower(lower, last), Lower(lower, k));
      FoundInSomeClaim(lower, acr, rest, k);
      assert amr == rest + [last];
    }
  }

  lemma {:induction false} FirstIsBest(keys: seq<string>, hay: string, k: string)
    requires Ordered(keys) && k in keys && Contains(hay, k)
    ensures FirstIn(keys, hay).Some? && !Before(k, FirstIn(keys, hay).value)
  {
    LessIsTotal(k, k);
    if !Contains(hay, keys[0]) { FirstIsBest(keys[1..], hay, k); }
  }

  lemma {:induction false} MeaningsArePolicy(lower: Case, policy: map<string, string>, order: seq<string>, k: string)
    requires OneMeaning(lower, policy) && (forall j :: j in order ==> j in policy) && k in order
    ensures Lower(lower, k) in Meanings(lower, policy, order)
    ensures Meanings(lower, policy, order)[Lower(lower, k)] == policy[k]
    decreases |order|
  {
    var rest, last := order[..|order| - 1], order[|order| - 1];
    assert order == rest + [last];
    if k != last { MeaningsArePolicy(lower, policy, rest, k); }
  }

  /** Claim resolution is order-free: for a plain vocabulary the code reads what
      Reads says, which names no order of the vocabulary or of the claims. */
  lemma ReadsAsMeant(
    lower: Case, policy: map<string, string>, order: seq<string>, keys: seq<string>, def: string,
    acr: string, amr: seq<string>)
    requires KeepsSpaces(lower) && Plain(lower, policy) && Walks(policy, order) && Ordered(keys)
    requires forall t :: t in keys <==> exists k :: k in policy && Lower(lower, k) == t
    ensures var found := FirstIn(keys, Haystack(lower, acr, amr));
            && (found.Some? ==> found.value in Meanings(lower, policy, order))
            && Reads(lower, policy, def, acr, amr, Meant(found, Meanings(lower, policy, order), def))
  {
    var hay := Haystack(lower, acr, amr);
    var found := FirstIn(keys, hay);
    forall k | k in policy ensures Contains(hay, Lower(lower, k)) <==> Carries(lower, acr, amr, k) {
      FoundInSomeClaim(lower, acr, amr, k);
    }
    if found.Some? {
      var k :| k in policy && Lower(lower, k) == found.value;
      MeaningsArePolicy(lower, policy, order, k);
      forall j | j in policy && Carries(lower, acr, amr, j) ensures !Before(Lower(lower, j), Lower(lower, k)) {
        FirstIsBest(keys, hay, Lower(lower, j));
      }
      assert IsBest(lower, policy, acr, amr, k);
    } else {
      forall k | k in policy ensures !Carries(lower, acr, amr, k) {
        assert Lower(lower, k) in keys;
      }
    }
  }

  /** And that is one value, the same for any claims that say the same: whichever of
      them carries a token, and in whatever order. */
  lemma OneReading(
    lower: Case, policy: map<string, string>, def: string,
    acr: string, amr: seq<string>, r: string, acr': string, amr': seq<string>, r': string)
    requires Plain(lower, policy)
    requires forall k :: k in policy ==> (Carries(lower, acr, amr, k) <==> Carries(lower, acr', amr', k))
    requires Reads(lower, policy, def, acr, amr, r) && Reads(lower, policy, def, acr', amr', r')
    ensures r == r'
  {
    if exists k :: k in policy && Carries(lower, acr, amr, k) {
      var j :| IsBest(lower, policy, acr, amr, j) && r == policy[j];
      var k :| IsBest(lower, policy, acr', amr', k) && r' == policy[k];
      LessIsTotal(Lower(lower, j), Lower(lower, k));
      assert Lower(lower, j) == Lower(lower, k);
    }
  }

  lemma {:induction false} SizeSplits(a: string, b: string)
    ensures Size(a + b) == Size(a) + Size(b) && (a != "" ==> Size(a) > 0)
  {
    if a == "" {
      assert a + b == b;
    } else {
      assert (a + b)[1..] == a[1..] + b;
      SizeSplits(a[1..], b);
    }
  }

  /** A token that holds another is tried before it. */
  lemma HoldingIsBefore(a: string, b: string)
    requires Contains(a, b) && a != b
    ensures Before(a, b) && !Before(b, a)
  {
    var i :| 0 <= i <= |a| && OccursAt(a, b, i);
    var before, after := a[..i], a[i + |b|..];
    assert a == before + (b + after);
    SizeSplits(before, b + after);
    SizeSplits(b, after);
    SizeSplits(after, "");
    assert before != "" || after != "";
  }

  /** So the most specific token is read: none that holds it is carried. */
  lemma MostSpecificIsRead(
    lower: Case, policy: map<string, string>, acr: string, amr: seq<string>, k: string, j: string)
    requires IsBest(lower, policy, acr, amr, k) && j in policy && Carries(lower, acr, amr, j)
    ensures Contains(Lower(lower, j), Lower(lower, k)) ==> Lower(lower, j) == Lower(lower, k)
  {
    var a, b := Lower(lower, j), Lower(lower, k);
    if Contains(a, b) && a != b { HoldingIsBefore(a, b); }
  }

  /** Interpret, of one vocabulary walked in any order. */
  method Interpret(
    lower: Case, policy: map<string, string>, order: seq<string>, def: string, acr: string, amr: seq<string>)
    returns (r: string)
    requires KeepsSpaces(lower) && Plain(lower, policy) && Walks(policy, order)
    ensures Reads(lower, policy, def, acr, amr, r)
  {
    var meanings, keys := IndexPolicy(lower, policy, order);
    forall t | t in keys ensures t in meanings {
      var k :| k in policy && Lower(lower, k) == t;
      MeaningsArePolicy(lower, policy, order, k);
    }
    ReadsAsMeant(lower, policy, order, keys, def, acr, amr);
    r := MatchPolicy(lower, keys, meanings, def, acr, amr);
  }

  // Without those conditions

  lemma LowerSplits(lower: Case, a: string, b: string)
    ensures Lower(lower, a + b) == Lower(lower, a) + Lower(lower, b)
  {}

  lemma FoundWhereCarried(lower: Case, k: string)
    requires KeepsSpaces(lower) && ' ' !in k
    ensures forall acr, amr :: Contains(Haystack(lower, acr, amr), Lower(lower, k)) <==> Carries(lower, acr, amr, k)
  {
    forall acr, amr ensures Contains(Haystack(lower, acr, amr), Lower(lower, k)) <==> Carries(lower, acr, amr, k) {
      FoundInSomeClaim(lower, acr, amr, k);
    }
  }

  lemma FoundInNeither(lower: Case, k: string) returns (acr: string, amr: seq<string>)
    requires KeepsSpaces(lower) && ' ' in k
    ensures Contains(Haystack(lower, acr, amr), Lower(lower, k)) && !Carries(lower, acr, amr, k)
  {
    var p :| 0 <= p < |k| && k[p] == ' ';
    acr, amr := k[..p], [k[p + 1..]];
    FoundAcross(lower, acr, k[p + 1..]);
    assert k == acr + " " + k[p + 1..];
  }

  /** A token is found exactly where some claim carries it, whatever the claims, if and
      only if it holds no space: split at one, its halves as two claims make a line
      that holds it. */
  lemma TokensAreFoundInClaims(lower: Case, k: string)
    requires KeepsSpaces(lower)
    ensures ' ' !in k <==> forall acr, amr :: Contains(Haystack(lower, acr, amr), Lower(lower, k))
                                              <==> Carries(lower, acr, amr, k)
  {
    if ' ' in k {
      var acr, amr := FoundInNeither(lower, k);
    } else {
      FoundWhereCarried(lower, k);
    }
  }

  lemma FoundAcross(lower: Case, u: string, v: string)
    requires lower(' ') == ' '
    ensures Contains(Haystack(lower, u, [v]), Lower(lower, u + " " + v)) && !Carries(lower, u, [v], u + " " + v)
  {
    var x, y, text := Lower(lower, u), Lower(lower, v), Lower(lower, u + " " + v);
    assert text == x + " " + y by {
      LowerSplits(lower, u + " ", v);
      LowerSplits(lower, u, " ");
      assert Lower(lower, " ") == " ";
    }
    assert Haystack(lower, u, [v]) == text by { assert [v][..0] == [] && Haystack(lower, u, []) == x; }
    assert OccursAt(text, text, 0);
    TooLong(x, text);
    TooLong(y, text);
  }

  lemma TooLong(text: string, k: string)
    requires |text| < |k|
    ensures !Contains(text, k)
  {}

  /** A token with a space is found across two claims, in neither of them. */
  lemma SpacesReachAcross(lower: Case)
    requires lower('a') == 'a' && lower('b') == 'b' && lower(' ') == ' '
    ensures Contains(Haystack(lower, "a", ["b"]), Lower(lower, "a b")) && !Carries(lower, "a", ["b"], "a b")
  {
    FoundAcross(lower, "a", "b");
    assert "a" + " " + "b" == "a b";
  }

  lemma Enumerated(keys: set<string>) returns (order: seq<string>)
    ensures forall k :: k in order <==> k in keys
    ensures forall i, j :: 0 <= i < j < |order| ==> order[i] != order[j]
  {
    if keys == {} {
      order := [];
    } else {
      var k :| k in keys;
      order := Enumerated(keys - {k});
      order := order + [k];
    }
  }

  lemma WalkEndingWith(policy: map<string, string>, k: string) returns (order: seq<string>)
    requires k in policy
    ensures Walks(policy, order) && order != [] && order[|order| - 1] == k
  {
    var before := Enumerated(policy.Keys - {k});
    order := before + [k];
  }

  lemma {:induction false} MeantTokens(lower: Case, policy: map<string, string>, order: seq<string>, t: string)
    requires forall k :: k in order ==> k in policy
    ensures t in Meanings(lower, policy, order) <==> IsLowerOf(lower, order, t)
    decreases |order|
  {
    if order != [] {
      MeantTokens(lower, policy, order[..|order| - 1], t);
      assert order == order[..|order| - 1] + [order[|order| - 1]];
    }
  }

  /** The tokens mean the same however the vocabulary is walked if and only if those
      alike but for case are given one value. */
  lemma MeaningsAgreeOnEveryWalk(lower: Case, policy: map<string, string>)
    ensures OneMeaning(lower, policy) <==>
            forall a, b :: Walks(policy, a) && Walks(policy, b) ==>
                             Meanings(lower, policy, a) == Meanings(lower, policy, b)
  {
    if OneMeaning(lower, policy) {
      forall a, b | Walks(policy, a) && Walks(policy, b)
        ensures Meanings(lower, policy, a) == Meanings(lower, policy, b)
      {
        WalksMeanAlike(lower, policy, a, b);
      }
    } else {
      var j, k :| j in policy && k in policy && Lower(lower, j) == Lower(lower, k) && policy[j] != policy[k];
      var a := WalkEndingWith(policy, j);
      var b := WalkEndingWith(policy, k);
      assert Meanings(lower, policy, a)[Lower(lower, j)] == policy[j];
      assert Meanings(lower, policy, b)[Lower(lower, j)] == policy[k];
    }
  }

  lemma WalksMeanAlike(lower: Case, policy: map<string, string>, a: seq<string>, b: seq<string>)
    requires OneMeaning(lower, policy) && Walks(policy, a) && Walks(policy, b)
    ensures Meanings(lower, policy, a) == Meanings(lower, policy, b)
  {
    var m, n := Meanings(lower, policy, a), Meanings(lower, policy, b);
    forall t ensures t in m <==> t in n {
      MeantTokens(lower, policy, a, t);
      MeantTokens(lower, policy, b, t);
    }
    forall t | t in m ensures m[t] == n[t] {
      MeantTokens(lower, policy, a, t);
      var k :| k in a && Lower(lower, k) == t;
      MeaningsArePolicy(lower, policy, a, k);
      MeaningsArePolicy(lower, policy, b, k);
    }
  }

  /** Of two tokens alike but for case, what is read depends on the walk. */
  lemma CaseAloneIsNotEnough(lower: Case)
    requires lower('A') == 'a' && lower('a') == 'a'
    ensures var policy := map["A" := "one", "a" := "two"];
            && Walks(policy, ["A", "a"]) && Walks(policy, ["a", "A"])
            && Lookup(Meanings(lower, policy, ["A", "a"]), "a") == Some("two")
            && Lookup(Meanings(lower, policy, ["a", "A"]), "a") == Some("one")
  {
    assert Lower(lower, "A") == "a" && Lower(lower, "a") == "a";
    assert ["A", "a"][..1] == ["A"] && ["a", "A"][..1] == ["a"] && ["A"][..0] == [] && ["a"][..0] == [];
  }
}
