/** Splitting and joining text as the service does: scope lists, connection members,
    store keys. */
module Words {
  import opened StoreModel

  // White space as Unicode has it.
  predicate IsSpace(c: char) {
    || '\t' <= c <= '\r' || c == ' ' || c == '\U{85}' || c == '\U{A0}' || c == '\U{1680}'
    || '\U{2000}' <= c <= '\U{200A}' || c == '\U{2028}' || c == '\U{2029}' || c == '\U{202F}'
    || c == '\U{205F}' || c == '\U{3000}'
  }

  predicate NoSpace(s: string) {
    forall i :: 0 <= i < |s| ==> !IsSpace(s[i])
  }

  // What a list of words may hold: something, and no space in it.
  predicate IsWord(s: string) {
    s != "" && NoSpace(s)
  }

  predicate AllWords(ws: seq<string>) {
    forall w :: w in ws ==> IsWord(w)
  }

  function Ended(word: string): seq<string> {
    if word == "" then [] else [word]
  }

  // The words of s, `word` being the start of the first.
  function FieldsAfter(word: string, s: string): (r: seq<string>)
    requires NoSpace(word)
    ensures AllWords(r)
    decreases |s|
  {
    if s == "" then Ended(word)
    else if IsSpace(s[0]) then Ended(word) + FieldsAfter("", s[1..])
    else FieldsAfter(word + [s[0]], s[1..])
  }

  /** strings.Fields: the words of s, whatever space parts them. */
  function Fields(s: string): (r: seq<string>)
    ensures AllWords(r)
  {
    FieldsAfter("", s)
  }

  /** strings.Join with a space. */
  function Joined(ws: seq<string>): string {
    if ws == [] then ""
    else if |ws| == 1 then ws[0]
    else ws[0] + " " + Joined(ws[1..])
  }

  lemma {:induction false} FieldsAfterWord(word: string, w: string, rest: string)
    requires NoSpace(word) && NoSpace(w)
    ensures FieldsAfter(word, w + rest) == FieldsAfter(word + w, rest)
    decreases |w|
  {
    if w == "" {
      assert w + rest == rest && word + w == word;
    } else {
      assert (w + rest)[1..] == w[1..] + rest;
      assert word + [w[0]] + w[1..] == word + w;
      FieldsAfterWord(word + [w[0]], w[1..], rest);
    }
  }

  lemma {:induction false} FieldsOfJoined(ws: seq<string>)
    requires AllWords(ws)
    ensures Fields(Joined(ws)) == ws
  {
    if ws == [] {
    } else if |ws| == 1 {
      assert ws[0] in ws;
      assert ws[0] + "" == ws[0] && "" + ws[0] == ws[0];
      FieldsAfterWord("", ws[0], "");
    } else {
      var rest := " " + Joined(ws[1..]);
      assert ws[0] in ws;
      assert Joined(ws) == ws[0] + rest && "" + ws[0] == ws[0];
      FieldsAfterWord("", ws[0], rest);
      assert rest[1..] == Joined(ws[1..]) && ws == [ws[0]] + ws[1..];
      FieldsOfJoined(ws[1..]);
    }
  }

  /** A list survives printing and parsing exactly when all it holds are words. */
  lemma PrintsAndParses(ws: seq<string>)
    ensures Fields(Joined(ws)) == ws <==> AllWords(ws)
  {
    if AllWords(ws) { FieldsOfJoined(ws); }
  }

  /** strings.Cut: s before and after the first sep in it. */
  function Cut(s: string, sep: char): (r: Option<(string, string)>)
    ensures r.None? <==> sep !in s
    ensures r.Some? ==> s == r.value.0 + [sep] + r.value.1 && sep !in r.value.0
  {
    if s == "" then None
    else if s[0] == sep then Some(("", s[1..]))
    else
      match Cut(s[1..], sep)
      case None => None
      case Some(p) => Some(([s[0]] + p.0, p.1))
  }

  lemma {:induction false} CutAtFirst(a: string, sep: char, b: string)
    requires sep !in a
    ensures Cut(a + [sep] + b, sep) == Some((a, b))
  {
    if a != "" {
      assert (a + [sep] + b)[1..] == a[1..] + [sep] + b && (a + [sep] + b)[0] == a[0] && a[0] in a;
      assert [a[0]] + a[1..] == a;
      CutAtFirst(a[1..], sep, b);
    }
  }

  /** What cutting gives back is what was put together exactly when the first part
      does not hold the separator. */
  lemma CutsBack(a: string, sep: char, b: string)
    ensures Cut(a + [sep] + b, sep) == Some((a, b)) <==> sep !in a
  {
    if sep !in a { CutAtFirst(a, sep, b); }
  }
}
