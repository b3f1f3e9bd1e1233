/** The ways a browser's shared session keeps (session/shared.go). */
module SharedWays {
  import opened StoreModel

  function Without(ways: seq<Way>, m: string): (r: seq<Way>)
    ensures forall w :: w in r <==> w in ways && w.loginMethod != m
    ensures |r| <= |ways|
  {
    if ways == [] then []
    else if ways[0].loginMethod == m then Without(ways[1..], m)
    else [ways[0]] + Without(ways[1..], m)
  }

  // The end the record moves to: the latest of its own and the ways' ends.
  function LatestEnd(from: Time, ways: seq<Way>): (r: Time)
    ensures from <= r && forall w :: w in ways ==> w.ends <= r
    ensures r == from || exists w :: w in ways && w.ends == r
    decreases |ways|
  {
    if ways == [] then from
    else LatestEnd(if from < ways[0].ends then ways[0].ends else from, ways[1..])
  }

  function Kept(sh: Shared, w: Way): (r: Shared) {
    var ways := Without(sh.ways, w.loginMethod) + [w];
    sh.(ways := ways, expiresAt := LatestEnd(sh.expiresAt, ways))
  }

  ghost predicate DistinctMethods(ways: seq<Way>) {
    forall i, j :: 0 <= i < j < |ways| ==> ways[i].loginMethod != ways[j].loginMethod
  }

  // The record's end is the greatest of its ways' ends.
  ghost predicate EndsWithItsWays(sh: Shared) {
    (exists w :: w in sh.ways && w.ends == sh.expiresAt) && forall w :: w in sh.ways ==> w.ends <= sh.expiresAt
  }

  lemma {:induction false} WithoutKeepsDistinct(ways: seq<Way>, m: string)
    requires DistinctMethods(ways)
    ensures DistinctMethods(Without(ways, m))
  {
    if ways != [] {
      WithoutKeepsDistinct(ways[1..], m);
      assert forall w :: w in Without(ways[1..], m) ==> w in ways[1..];
    }
  }

  /** The ways are in the order of the sign-ins, so the most recent is the last. */
  ghost predicate InTime(ways: seq<Way>) {
    forall i, j :: 0 <= i < j < |ways| ==> ways[i].signedIn <= ways[j].signedIn
  }

  lemma {:induction false} WithoutKeepsTime(ways: seq<Way>, m: string)
    requires InTime(ways)
    ensures InTime(Without(ways, m))
  {
    if ways != [] {
      WithoutKeepsTime(ways[1..], m);
      assert forall w :: w in Without(ways[1..], m) ==> w in ways[1..];
    }
  }

  /** A sign-in after those the record has is its most recent: the order of time is
      kept, and each method once. */
  lemma KeepIsInTime(sh: Shared, w: Way)
    requires InTime(sh.ways) && DistinctMethods(sh.ways) && forall o :: o in sh.ways ==> o.signedIn <= w.signedIn
    ensures InTime(Kept(sh, w).ways) && DistinctMethods(Kept(sh, w).ways)
  {
    WithoutKeepsTime(sh.ways, w.loginMethod);
    WithoutKeepsDistinct(sh.ways, w.loginMethod);
  }

  lemma {:induction false} LatestEndSplits(from: Time, a: seq<Way>, b: seq<Way>)
    ensures LatestEnd(from, a + b) == LatestEnd(LatestEnd(from, a), b)
    decreases |a|
  {
    if a == [] {
      assert a + b == b;
    } else {
      assert (a + b)[1..] == a[1..] + b;
      LatestEndSplits(if from < a[0].ends then a[0].ends else from, a[1..], b);
    }
  }

  lemma LatestEndNext(from: Time, ways: seq<Way>, i: nat)
    requires i < |ways|
    ensures var so, end := LatestEnd(from, ways[..i]), ways[i].ends;
            LatestEnd(from, ways[..i + 1]) == if so < end then end else so
  {
    assert ways[..i + 1] == ways[..i] + [ways[i]];
    LatestEndSplits(from, ways[..i], [ways[i]]);
  }

  /** One way a method, the newest last, and no way lost but an earlier sign-in by
      the same method. */
  lemma KeepIsLast(sh: Shared, w: Way)
    requires DistinctMethods(sh.ways)
    ensures DistinctMethods(Kept(sh, w).ways)
    ensures Kept(sh, w).ways[|Kept(sh, w).ways| - 1] == w
    ensures forall o :: o in Kept(sh, w).ways <==> o == w || (o in sh.ways && o.loginMethod != w.loginMethod)
  {
    WithoutKeepsDistinct(sh.ways, w.loginMethod);
  }

  /** After a Keep the record ends with the last of its ways exactly when no time was
      lost: the new way ends no earlier than the record did, or a way that is kept
      still holds the record's end. A later sign-in always ends later, so over
      sign-ins in order the record ends with its ways; one that could end earlier
      would leave the record with an end none of its ways has. */
  lemma KeepEndsWithWays(sh: Shared, w: Way)
    requires EndsWithItsWays(sh)
    ensures EndsWithItsWays(Kept(sh, w)) <==>
            (sh.expiresAt <= w.ends
             || exists o :: o in sh.ways && o.loginMethod != w.loginMethod && o.ends == sh.expiresAt)
  {
    var ways := Without(sh.ways, w.loginMethod) + [w];
    var kept := Kept(sh, w);
    assert w in ways;
    assert forall o :: o in ways <==> o == w || (o in sh.ways && o.loginMethod != w.loginMethod);
    if sh.expiresAt <= w.ends {
      assert kept.expiresAt <= w.ends;
    } else {
      assert kept.expiresAt == sh.expiresAt;
    }
  }

  /** The record after the sign-ins `ws`, one after the other. */
  function KeptAll(subject: string, ws: seq<Way>): Shared {
    if ws == [] then Shared(subject, [], 0) else Kept(KeptAll(subject, ws[..|ws| - 1]), ws[|ws| - 1])
  }

  // One of the sign-ins, and none after it was by its method.
  ghost predicate IsLastOf(ws: seq<Way>, w: Way) {
    exists i :: 0 <= i < |ws| && ws[i] == w && forall j :: i < j < |ws| ==> ws[j].loginMethod != w.loginMethod
  }

  /** The ways are the last sign-in by each method, and no other. */
  ghost predicate LastsOf(ws: seq<Way>, ways: seq<Way>) {
    forall w :: w in ways <==> IsLastOf(ws, w)
  }

  lemma LastOfOneMore(ws: seq<Way>, last: Way, w: Way)
    ensures IsLastOf(ws + [last], w) <==> w == last || (IsLastOf(ws, w) && w.loginMethod != last.loginMethod)
  {
    var all := ws + [last];
    if w == last { assert all[|ws|] == w; }
    if IsLastOf(ws, w) && w.loginMethod != last.loginMethod {
      var i :| 0 <= i < |ws| && ws[i] == w && forall j :: i < j < |ws| ==> ws[j].loginMethod != w.loginMethod;
      assert all[i] == w;
    }
    if IsLastOf(all, w) && w != last {
      var i :| 0 <= i < |all| && all[i] == w && forall j :: i < j < |all| ==> all[j].loginMethod != w.loginMethod;
      assert ws[i] == w && all[|ws|] == last;
      assert forall j :: i < j < |ws| ==> ws[j] == all[j];
    }
  }

  lemma KeepsOneMore(sh: Shared, ws: seq<Way>, w: Way)
    requires LastsOf(ws, sh.ways) && DistinctMethods(sh.ways) && InTime(sh.ways)
    requires forall o :: o in ws ==> o.signedIn <= w.signedIn
    ensures var kept := Kept(sh, w).ways;
            LastsOf(ws + [w], kept) && DistinctMethods(kept) && InTime(kept) && kept[|kept| - 1] == w
  {
    KeepIsLast(sh, w);
    forall o | o in sh.ways ensures o in ws { assert IsLastOf(ws, o); }
    KeepIsInTime(sh, w);
    forall o ensures o in Kept(sh, w).ways <==> IsLastOf(ws + [w], o) { LastOfOneMore(ws, w, o); }
  }

  // What a record keeps of the sign-ins: the last by each method, each once, in order.
  ghost predicate KeepsLasts(ws: seq<Way>, ways: seq<Way>) {
    LastsOf(ws, ways) && DistinctMethods(ways) && InTime(ways)
  }

  lemma NoneKept()
    ensures KeepsLasts([], [])
  {}

  /** Over any run of sign-ins, in order, the record keeps the last by each method and no
      other, each once and in order. */
  lemma {:induction false} KeepsLastOfEach(subject: string, ws: seq<Way>)
    requires InTime(ws)
    ensures KeepsLasts(ws, KeptAll(subject, ws).ways)
  {
    if ws == [] {
      NoneKept();
    } else {
      var before, w := ws[..|ws| - 1], ws[|ws| - 1];
      KeepsLastOfEach(subject, before);
      KeepsOneMore(KeptAll(subject, before), before, w);
      assert before + [w] == ws;
    }
  }

  /** Over any run of sign-ins that end in order, the latest is last, and the record ends
      with the greatest of the ends it keeps, which is the end of the latest. */
  lemma {:induction false} KeepsInOrder(subject: string, ws: seq<Way>)
    requires ws != [] && 0 < ws[0].ends
    requires forall i, j :: 0 <= i < j < |ws| ==> ws[i].ends <= ws[j].ends
    ensures var sh := KeptAll(subject, ws);
            && DistinctMethods(sh.ways) && EndsWithItsWays(sh)
            && sh.ways != [] && sh.ways[|sh.ways| - 1] == ws[|ws| - 1] && sh.expiresAt == ws[|ws| - 1].ends
  {
    var before, w := ws[..|ws| - 1], ws[|ws| - 1];
    var sh := KeptAll(subject, before);
    if before != [] {
      KeepsInOrder(subject, before);
      KeepEndsWithWays(sh, w);
    }
    KeepIsLast(sh, w);
    assert w in Kept(sh, w).ways;
  }

  // The record as the source keeps it, changed in place.
  class SharedRecord {
    var subject: string
    var ways: seq<Way>
    var expiresAt: Time

    function Value(): Shared
      reads this
    {
      Shared(subject, ways, expiresAt)
    }

    /** Records w as the most recent way, in place of an earlier sign-in by the same
        method, and moves the end to the last way's. */
    method Keep(w: Way)
      modifies this
      ensures Value() == Kept(old(Value()), w)
    {
      var kept := Without(ways, w.loginMethod);
      kept := kept + [w];
      ways := kept;
      ghost var from := expiresAt;
      for i := 0 to |kept|
        invariant subject == old(subject) && ways == kept
        invariant expiresAt == LatestEnd(from, kept[..i])
      {
        var o := kept[i];
        LatestEndNext(from, kept, i);
        if expiresAt < o.ends {
          expiresAt := o.ends;
        }
      }
      assert kept[..|kept|] == kept;
    }

    method Expired(now: Time) returns (ended: bool)
      ensures ended <==> expiresAt == 0 || expiresAt <= now
    {
      ended := expiresAt == 0 || !(now < expiresAt);
    }
  }
}
