/** The names entries are kept under (session/store.go, session/sessiontest/memory.go). */
module StoreKeys {
  import opened StoreModel
  import opened Words

  // Every key of the one map begins with one of these.
  const PREFIXES: seq<string> := ["flow:", "code:", "sess:", "refresh:", "shared:", "shared-apps:", "conn:"]

  lemma StartsWith(p: string, q: string, a: string, b: string)
    requires p + a == q + b && |p| <= |q|
    ensures forall i :: 0 <= i < |p| ==> p[i] == q[i]
  {
    forall i | 0 <= i < |p| ensures p[i] == q[i] {
      assert (p + a)[i] == (q + b)[i];
    }
  }

  /** One map keeps them all apart: no key of one kind is a key of another, whatever
      ids they are for. */
  lemma KindsKeptApart(i: nat, j: nat, a: string, b: string)
    requires i < |PREFIXES| && j < |PREFIXES| && PREFIXES[i] + a == PREFIXES[j] + b
    ensures i == j && a == b
  {
    var p, q := PREFIXES[i], PREFIXES[j];
    if |p| <= |q| { StartsWith(p, q, a, b); } else { StartsWith(q, p, b, a); }
    assert p[0] == q[0] && p[1] == q[1] && p[2] == q[2];
    if |p| >= 7 && |q| >= 7 { assert p[6] == q[6]; }
    assert i == j;
    assert a == (p + a)[|p|..] && b == (q + b)[|q|..];
  }

  // An assistant's index is kept under its tenant and its key.
  function IndexName(key: IndexKey): string {
    key.tenant + "/" + key.assistant
  }

  /** Two indexes have one name only if a tenant's name holds a slash. */
  lemma IndexesKeptApart(a: IndexKey, b: IndexKey)
    requires '/' !in a.tenant && '/' !in b.tenant
    ensures IndexName(a) == IndexName(b) <==> a == b
  {
    CutAtFirst(a.tenant, '/', a.assistant);
    CutAtFirst(b.tenant, '/', b.assistant);
  }

  /** No other index has its name if and only if neither its tenant's name nor its key
      holds a slash. */
  lemma OneIndexOfItsName(a: IndexKey)
    ensures '/' !in a.tenant && '/' !in a.assistant <==> forall b :: IndexName(b) == IndexName(a) ==> b == a
  {
    if '/' in a.tenant {
      var p :| 0 <= p < |a.tenant| && a.tenant[p] == '/';
      var b := IndexKey(a.tenant[..p], a.tenant[p + 1..] + "/" + a.assistant);
      assert a.tenant == a.tenant[..p] + "/" + a.tenant[p + 1..];
      assert IndexName(b) == IndexName(a) && |b.tenant| != |a.tenant|;
    } else if '/' in a.assistant {
      var p :| 0 <= p < |a.assistant| && a.assistant[p] == '/';
      var b := IndexKey(a.tenant + "/" + a.assistant[..p], a.assistant[p + 1..]);
      assert a.assistant == a.assistant[..p] + "/" + a.assistant[p + 1..];
      assert IndexName(b) == IndexName(a) && |b.tenant| != |a.tenant|;
    } else {
      forall b | IndexName(b) == IndexName(a) ensures b == a { OneSlash(a, b); }
    }
  }

  lemma OneSlash(a: IndexKey, b: IndexKey)
    requires '/' !in a.tenant && '/' !in a.assistant && IndexName(b) == IndexName(a)
    ensures b == a
  {
    var name := IndexName(a);
    assert forall i :: 0 <= i < |name| && name[i] == '/' ==> i == |a.tenant|;
    assert IndexName(b)[|b.tenant|] == '/';
    assert a.tenant == name[..|a.tenant|] && b.tenant == IndexName(b)[..|b.tenant|];
    assert a.assistant == name[|a.tenant| + 1..] && b.assistant == IndexName(b)[|b.tenant| + 1..];
  }

  /** With one that does, they may. */
  lemma IndexesConfused()
    ensures IndexName(IndexKey("a", "b/c")) == IndexName(IndexKey("a/b", "c"))
  {
    assert IndexName(IndexKey("a", "b/c")) == "a/b/c" == IndexName(IndexKey("a/b", "c"));
  }

  // How an index names a connection: its public name, a space, its session's key.
  function Member(id: string, sessionID: string): string {
    id + " " + sessionID
  }

  /** A connection read back is the one kept exactly when its public name holds no
      space, whatever its session's key. */
  lemma MembersReadBack(id: string, sessionID: string)
    ensures Cut(Member(id, sessionID), ' ') == Some((id, sessionID)) <==> ' ' !in id
  {
    CutsBack(id, ' ', sessionID);
  }
}
