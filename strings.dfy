/** String operations of the JavaScript runtime that the core relies on. */
module Strings {

  /** The characters of JavaScript's `\s` class, which are also the ones `String.prototype.trim` removes. */
  predicate IsJsSpace(c: char) {
    c == ' ' || c == '\t' || c == '\n' || c == '\U{B}' || c == '\U{C}' || c == '\r'
    || c == '\U{A0}' || c == '\U{1680}' || ('\U{2000}' <= c <= '\U{200A}')
    || c == '\U{2028}' || c == '\U{2029}' || c == '\U{202F}' || c == '\U{205F}'
    || c == '\U{3000}' || c == '\U{FEFF}'
  }

  predicate NoSpaceIn(s: string) {
    forall i :: 0 <= i < |s| ==> !IsJsSpace(s[i])
  }

  /** No two neighbouring characters are both white space. */
  predicate NoDoubleSpace(s: string) {
    forall i :: 0 <= i < |s| - 1 ==> !(IsJsSpace(s[i]) && IsJsSpace(s[i + 1]))
  }

  /** Neither the first nor the last character is white space. */
  predicate NoSpaceAtEnds(s: string) {
    s != [] ==> !IsJsSpace(s[0]) && !IsJsSpace(s[|s| - 1])
  }

  /** The only white space character is the plain space. */
  predicate OnlyPlainSpaces(s: string) {
    forall i :: 0 <= i < |s| && IsJsSpace(s[i]) ==> s[i] == ' '
  }

  function ToLowerChar(c: char): (r: char)
    ensures 'A' <= c <= 'Z' ==> r as int == c as int + 32
    ensures !('A' <= c <= 'Z') ==> r == c
  {
    if 'A' <= c <= 'Z' then (c as int + 32) as char else c
  }

  /** `toLowerCase`, on the ASCII letters. */
  function ToLower(s: string): (r: string)
    ensures |r| == |s|
    ensures forall i :: 0 <= i < |s| ==> r[i] == ToLowerChar(s[i])
  {
    seq(|s|, i requires 0 <= i < |s| => ToLowerChar(s[i]))
  }

  predicate StartsWith(s: string, prefix: string) {
    |prefix| <= |s| && s[..|prefix|] == prefix
  }

  /** `t` occurs in `s` starting at position `i`. */
  predicate OccursAt(s: string, t: string, i: int) {
    0 <= i <= |s| - |t| && s[i..i + |t|] == t
  }

  /** `s.includes(t)`. */
  predicate Contains(s: string, t: string) {
    exists i | 0 <= i <= |s| - |t| :: OccursAt(s, t, i)
  }

  /** `s.indexOf(c)` for a single character: -1 when absent. */
  function IndexOfChar(s: string, c: char): (r: int)
    ensures -1 <= r < |s|
    ensures r == -1 <==> c !in s
    ensures r >= 0 ==> s[r] == c && c !in s[..r]
  {
    if s == [] then -1
    else if s[0] == c then 0
    else
      var k := IndexOfChar(s[1..], c);
      assert k >= 0 ==> s[1..][..k] == s[1..k + 1];
      if k < 0 then -1 else k + 1
  }

  /** The part of `s` before the first `c`, or all of `s`. */
  function UpTo(s: string, c: char): (r: string)
    ensures c !in r
    ensures StartsWith(s, r)
    ensures |r| < |s| ==> s[|r|] == c
  {
    var k := IndexOfChar(s, c);
    if k < 0 then s else s[..k]
  }

  /** Drops leading white space. */
  function TrimStart(s: string): (r: string)
    ensures |r| <= |s| && r == s[|s| - |r|..]
    ensures r != [] ==> !IsJsSpace(r[0])
    ensures forall i :: 0 <= i < |s| - |r| ==> IsJsSpace(s[i])
  {
    if s != [] && IsJsSpace(s[0]) then TrimStart(s[1..]) else s
  }

  /** Drops trailing white space. */
  function TrimEnd(s: string): (r: string)
    ensures |r| <= |s| && r == s[..|r|]
    ensures r != [] ==> !IsJsSpace(r[|r| - 1])
    ensures forall i :: |r| <= i < |s| ==> IsJsSpace(s[i])
  {
    if s != [] && IsJsSpace(s[|s| - 1]) then TrimEnd(s[..|s| - 1]) else s
  }

  /** `r` is the part of `s` starting at `a`, and everything around it in `s` is white space. */
  predicate SpaceAround(s: string, r: string, a: int) {
    && OccursAt(s, r, a)
    && (forall i :: 0 <= i < a ==> IsJsSpace(s[i]))
    && (forall i :: a + |r| <= i < |s| ==> IsJsSpace(s[i]))
  }

  /** A suffix `t` of `s` after white space, and a prefix `r` of `t` before white space: `r` has only
      white space around it in `s`. */
  lemma SpaceAroundOf(s: string, t: string, r: string)
    requires |t| <= |s| && t == s[|s| - |t|..] && forall i :: 0 <= i < |s| - |t| ==> IsJsSpace(s[i])
    requires |r| <= |t| && r == t[..|r|] && forall i :: |r| <= i < |t| ==> IsJsSpace(t[i])
    ensures SpaceAround(s, r, |s| - |t|)
  {
    var a := |s| - |t|;
    assert s[a..a + |r|] == r;
    forall i | a + |r| <= i < |s| ensures IsJsSpace(s[i]) {
      assert s[i] == t[i - a];
    }
  }

  /** `String.prototype.trim`: the longest middle part of `s` that neither starts nor ends with white space. */
  function Trim(s: string): (r: string)
    ensures |r| <= |s|
    ensures NoSpaceAtEnds(r)
    ensures exists a :: SpaceAround(s, r, a)
  {
    var t := TrimStart(s);
    var r := TrimEnd(t);
    SpaceAroundOf(s, t, r);
    r
  }

  /** `join` on two and on three parts. */
  lemma JoinFew(a: string, b: string, c: string, sep: string)
    ensures Join([a, b], sep) == a + sep + b
    ensures Join([a, b, c], sep) == a + sep + b + sep + c
  {
    assert [a, b][..1] == [a];
    assert [a, b, c][..2] == [a, b];
  }

  /** `s.replace(/\s+/g, ' ')`: every maximal run of white space becomes one plain space. */
  function CollapseSpaces(s: string): (r: string)
    ensures (r == []) == (s == [])
    ensures r != [] ==> (IsJsSpace(r[0]) <==> IsJsSpace(s[0]))
    ensures NoDoubleSpace(r)
    ensures OnlyPlainSpaces(r)
    decreases |s|
  {
    if s == [] then []
    else if IsJsSpace(s[0]) then
      var rest := TrimStart(s[1..]);
      [' '] + CollapseSpaces(rest)
    else [s[0]] + CollapseSpaces(s[1..])
  }

  /** The string with every white space character removed. */
  function RemoveSpaces(s: string): (r: string)
    ensures NoSpaceIn(r)
    ensures |r| <= |s|
  {
    if s == [] then []
    else (if IsJsSpace(s[0]) then [] else [s[0]]) + RemoveSpaces(s[1..])
  }

  /** `parts.join(sep)`. */
  function Join(parts: seq<string>, sep: string): string {
    if |parts| == 0 then ""
    else if |parts| == 1 then parts[0]
    else Join(parts[..|parts| - 1], sep) + sep + parts[|parts| - 1]
  }

  /** `s.replace(/\s+/g, ' ').trim()`: single plain spaces between words, none at the ends. */
  function NormalizeSpaces(s: string): (r: string)
    ensures NoSpaceAtEnds(r) && NoDoubleSpace(r) && OnlyPlainSpaces(r)
  {
    TrimKeepsSpacing(CollapseSpaces(s));
    Trim(CollapseSpaces(s))
  }

  lemma TrimKeepsSpacing(s: string)
    requires NoDoubleSpace(s) && OnlyPlainSpaces(s)
    ensures NoDoubleSpace(Trim(s)) && OnlyPlainSpaces(Trim(s))
  {
    var t := TrimStart(s);
    SliceSpacing(s, |s| - |t|, |s|);
    SliceSpacing(t, 0, |TrimEnd(t)|);
  }

  /** A part of a string keeps its spacing properties. */
  lemma SliceSpacing(s: string, lo: int, hi: int)
    requires 0 <= lo <= hi <= |s|
    requires NoDoubleSpace(s) && OnlyPlainSpaces(s)
    ensures NoDoubleSpace(s[lo..hi]) && OnlyPlainSpaces(s[lo..hi])
  {
    var t := s[lo..hi];
    assert forall i :: 0 <= i < |t| ==> t[i] == s[lo + i];
  }

  lemma {:induction false} RemoveSpacesAppend(a: string, b: string)
    ensures RemoveSpaces(a + b) == RemoveSpaces(a) + RemoveSpaces(b)
  {
    if a == [] {
      assert a + b == b;
    } else {
      assert (a + b)[0] == a[0];
      assert (a + b)[1..] == a[1..] + b;
      RemoveSpacesAppend(a[1..], b);
      var h := if IsJsSpace(a[0]) then [] else [a[0]];
      assert RemoveSpaces(a + b) == h + (RemoveSpaces(a[1..]) + RemoveSpaces(b));
      assert h + (RemoveSpaces(a[1..]) + RemoveSpaces(b)) == (h + RemoveSpaces(a[1..])) + RemoveSpaces(b);
    }
  }

  lemma {:induction false} RemoveSpacesAllSpace(s: string)
    requires forall i :: 0 <= i < |s| ==> IsJsSpace(s[i])
    ensures RemoveSpaces(s) == []
  {
    if s != [] {
      RemoveSpacesAllSpace(s[1..]);
    }
  }

  lemma {:induction false} RemoveSpacesTrimStart(s: string)
    ensures RemoveSpaces(TrimStart(s)) == RemoveSpaces(s)
  {
    if s != [] && IsJsSpace(s[0]) {
      RemoveSpacesTrimStart(s[1..]);
    }
  }

  lemma {:induction false} RemoveSpacesCollapse(s: string)
    ensures RemoveSpaces(CollapseSpaces(s)) == RemoveSpaces(s)
    decreases |s|
  {
    if s != [] {
      if IsJsSpace(s[0]) {
        var rest := TrimStart(s[1..]);
        RemoveSpacesCollapse(rest);
        RemoveSpacesTrimStart(s[1..]);
        RemoveSpacesAppend([' '], CollapseSpaces(rest));
      } else {
        RemoveSpacesCollapse(s[1..]);
        RemoveSpacesAppend([s[0]], CollapseSpaces(s[1..]));
      }
    }
  }

  lemma {:induction false} RemoveSpacesTrimEnd(s: string)
    ensures RemoveSpaces(TrimEnd(s)) == RemoveSpaces(s)
  {
    if s != [] && IsJsSpace(s[|s| - 1]) {
      var init := s[..|s| - 1];
      assert s == init + [s[|s| - 1]];
      RemoveSpacesTrimEnd(init);
      RemoveSpacesAppend(init, [s[|s| - 1]]);
    }
  }

  lemma RemoveSpacesTrim(s: string)
    ensures RemoveSpaces(Trim(s)) == RemoveSpaces(s)
  {
    RemoveSpacesTrimStart(s);
    RemoveSpacesTrimEnd(TrimStart(s));
  }

  /** Normalising changes nothing but white space: the other characters stay, in order. */
  lemma NormalizeKeepsText(s: string)
    ensures RemoveSpaces(NormalizeSpaces(s)) == RemoveSpaces(s)
  {
    RemoveSpacesTrim(CollapseSpaces(s));
    RemoveSpacesCollapse(s);
  }

  lemma {:induction false} CollapseFixed(s: string)
    requires NoDoubleSpace(s) && OnlyPlainSpaces(s)
    ensures CollapseSpaces(s) == s
    decreases |s|
  {
    if s != [] {
      var rest := s[1..];
      assert NoDoubleSpace(rest) && OnlyPlainSpaces(rest) by {
        assert forall i :: 0 <= i < |rest| ==> rest[i] == s[i + 1];
      }
      CollapseFixed(rest);
      if IsJsSpace(s[0]) {
        assert rest != [] ==> !IsJsSpace(rest[0]);
        assert TrimStart(rest) == rest;
      }
    }
  }

  /** Normalising twice is normalising once. */
  lemma NormalizeIdempotent(s: string)
    ensures NormalizeSpaces(NormalizeSpaces(s)) == NormalizeSpaces(s)
  {
    var r := NormalizeSpaces(s);
    CollapseFixed(r);
    assert TrimStart(r) == r;
    assert TrimEnd(r) == r;
  }

  // ---------------------------------------------------------------- words

  /** Every character is white space. */
  predicate AllSpace(s: string) {
    forall i :: 0 <= i < |s| ==> IsJsSpace(s[i])
  }

  /** The longest prefix of `s` without white space. */
  function WordPrefix(s: string): (w: string)
    ensures |w| <= |s| && w == s[..|w|]
    ensures NoSpaceIn(w)
    ensures s != [] && !IsJsSpace(s[0]) ==> w != []
    ensures |w| < |s| ==> IsJsSpace(s[|w|])
  {
    if s == [] || IsJsSpace(s[0]) then []
    else
      var w := WordPrefix(s[1..]);
      assert ([s[0]] + w)[1..] == w;
      [s[0]] + w
  }

  /** The words of `s`: its maximal runs of characters that are not white space, in order. */
  function Words(s: string): seq<string>
    decreases |s|
  {
    var t := TrimStart(s);
    if t == [] then []
    else
      var w := WordPrefix(t);
      [w] + Words(t[|w|..])
  }

  /** A word: non-empty, with no white space in it. */
  predicate IsWord(w: string) {
    w != [] && NoSpaceIn(w)
  }

  /** Every string of `ws` is a word. */
  predicate AllWords(ws: seq<string>) {
    forall i :: 0 <= i < |ws| ==> IsWord(ws[i])
  }

  /** A word in front of words gives words. */
  lemma AllWordsCons(w: string, ws: seq<string>)
    requires IsWord(w) && AllWords(ws)
    ensures AllWords([w] + ws)
  {
    var r := [w] + ws;
    forall i | 0 <= i < |r| ensures IsWord(r[i]) {
      if i > 0 {
        assert r[i] == ws[i - 1];
      }
    }
  }

  /** Every word is non-empty and holds no white space. */
  lemma {:induction false} WordsShape(s: string)
    ensures AllWords(Words(s))
    decreases |s|
  {
    var t := TrimStart(s);
    if t != [] {
      var w := WordPrefix(t);
      assert IsWord(w);
      WordsShape(t[|w|..]);
      AllWordsCons(w, Words(t[|w|..]));
    }
  }

  /** Leading white space does not change the words. */
  lemma WordsTrimStart(s: string)
    ensures Words(TrimStart(s)) == Words(s)
  {
    var t := TrimStart(s);
    assert TrimStart(t) == t;
  }

  /** `join` on a list that starts with `w`. */
  lemma {:induction false} JoinCons(w: string, ws: seq<string>, sep: string)
    requires ws != []
    ensures Join([w] + ws, sep) == w + sep + Join(ws, sep)
    decreases |ws|
  {
    var all := [w] + ws;
    if |ws| == 1 {
      assert all[..1] == [w];
    } else {
      var init := ws[..|ws| - 1];
      assert all[..|all| - 1] == [w] + init;
      JoinCons(w, init, sep);
    }
  }

  /** Collapsing passes a word through unchanged. */
  lemma {:induction false} CollapseWord(w: string, rest: string)
    requires NoSpaceIn(w)
    ensures CollapseSpaces(w + rest) == w + CollapseSpaces(rest)
    decreases |w|
  {
    if w == [] {
      assert w + rest == rest;
    } else {
      var x := w + rest;
      assert x[0] == w[0] && !IsJsSpace(x[0]);
      assert x[1..] == w[1..] + rest;
      CollapseWord(w[1..], rest);
      assert CollapseSpaces(x) == [w[0]] + (w[1..] + CollapseSpaces(rest));
      assert w == [w[0]] + w[1..];
    }
  }

  /** The `' '` collapsing leaves at the end of a string that ends in white space. */
  function TrailingSpace(s: string): string {
    if s != [] && IsJsSpace(s[|s| - 1]) then " " else ""
  }

  /** A string that starts with a word is the word, then white space or nothing. */
  lemma WordSplit(s: string)
    requires s != [] && !IsJsSpace(s[0])
    ensures var w := WordPrefix(s); var rest := s[|w|..];
      && w != [] && NoSpaceIn(w) && s == w + rest
      && (rest != [] ==> IsJsSpace(rest[0]))
  {
    var w := WordPrefix(s);
    assert s == w + s[|w|..];
  }

  /** The words of a string that starts with a word: that word, then the words of the rest. */
  lemma WordsOfWord(s: string)
    requires s != [] && !IsJsSpace(s[0])
    ensures Words(s) == [WordPrefix(s)] + Words(s[|WordPrefix(s)|..])
  {
    assert TrimStart(s) == s;
  }

  /** A non-empty suffix ends like the whole string. */
  lemma TrailingSpaceSuffix(s: string, k: int)
    requires 0 <= k < |s|
    ensures TrailingSpace(s) == TrailingSpace(s[k..])
  {
    assert s[k..][|s| - k - 1] == s[|s| - 1];
  }

  /** A string that starts with a word: the word, then the rest. */
  lemma WordStep(s: string)
    requires s != [] && !IsJsSpace(s[0])
    ensures var w := WordPrefix(s); var rest := s[|w|..];
      && w != [] && NoSpaceIn(w) && s == w + rest
      && (rest != [] ==> IsJsSpace(rest[0]))
      && Words(s) == [w] + Words(rest)
      && CollapseSpaces(s) == w + CollapseSpaces(rest)
      && (rest != [] ==> TrailingSpace(s) == TrailingSpace(rest))
  {
    WordSplit(s);
    WordsOfWord(s);
    var w := WordPrefix(s);
    var rest := s[|w|..];
    CollapseWord(w, rest);
    if rest != [] {
      TrailingSpaceSuffix(s, |w|);
    }
  }

  /** A string that starts with white space collapses to one `' '`, then what follows the white space. */
  lemma SpaceCollapse(rest: string)
    requires rest != [] && IsJsSpace(rest[0])
    ensures CollapseSpaces(rest) == [' '] + CollapseSpaces(TrimStart(rest))
  {
    assert TrimStart(rest[1..]) == TrimStart(rest);
  }

  /** What follows leading white space ends like the whole string, unless nothing follows. */
  lemma SpaceTrailing(rest: string)
    requires rest != [] && IsJsSpace(rest[0])
    ensures TrailingSpace(rest) == (if TrimStart(rest) == [] then " " else TrailingSpace(TrimStart(rest)))
  {
    var t := TrimStart(rest);
    if t != [] {
      assert rest[|rest| - 1] == t[|t| - 1];
    }
  }

  /** Regrouping a word, a space, a joined text and the trailing space. */
  lemma Regroup(w: string, jt: string, e: string)
    ensures w + ([' '] + (jt + e)) == w + " " + jt + e
  {
  }

  /** A word has no white space at its ends. */
  lemma WordEnds(w: string)
    requires w != [] && NoSpaceIn(w)
    ensures NoSpaceAtEnds(w)
  {
    assert !IsJsSpace(w[0]);
    assert !IsJsSpace(w[|w| - 1]);
  }

  /** A word, a space and a text with no white space at its ends have none at their ends either. */
  lemma JoinedEnds(w: string, jt: string)
    requires w != [] && NoSpaceIn(w) && jt != [] && NoSpaceAtEnds(jt)
    ensures w + " " + jt != [] && NoSpaceAtEnds(w + " " + jt)
  {
    var j := w + " " + jt;
    assert j[0] == w[0];
    assert j[|j| - 1] == jt[|jt| - 1];
  }

  /** The property `CollapseWords` proves: for `s` that does not start with white space, collapsing
      gives the words joined by single spaces, then one space when `s` ends in white space; and the
      joined words have no white space at their ends. */
  predicate CollapsesToWords(s: string) {
    && CollapseSpaces(s) == Join(Words(s), " ") + TrailingSpace(s)
    && (s != [] ==> Join(Words(s), " ") != [] && NoSpaceAtEnds(Join(Words(s), " ")))
  }

  /** A word followed by white space and then more words. */
  lemma CollapseWordsStep(s: string)
    requires s != [] && !IsJsSpace(s[0])
    requires var rest := s[|WordPrefix(s)|..]; rest != [] && TrimStart(rest) != []
    requires CollapsesToWords(TrimStart(s[|WordPrefix(s)|..]))
    ensures CollapsesToWords(s)
  {
    WordStep(s);
    var w := WordPrefix(s);
    var rest := s[|w|..];
    var t := TrimStart(rest);
    SpaceCollapse(rest);
    SpaceTrailing(rest);
    WordsTrimStart(rest);
    var jt := Join(Words(t), " ");
    var e := TrailingSpace(t);
    assert Words(s) == [w] + Words(t);
    JoinCons(w, Words(t), " ");
    assert Join(Words(s), " ") == w + " " + jt;
    assert CollapseSpaces(s) == w + ([' '] + (jt + e));
    Regroup(w, jt, e);
    assert TrailingSpace(s) == e;
    JoinedEnds(w, jt);
  }

  /** A single word, perhaps followed by white space. */
  lemma CollapseOneWord(s: string)
    requires s != [] && !IsJsSpace(s[0])
    requires var rest := s[|WordPrefix(s)|..]; rest == [] || TrimStart(rest) == []
    ensures CollapsesToWords(s)
  {
    WordStep(s);
    var w := WordPrefix(s);
    var rest := s[|w|..];
    WordEnds(w);
    if rest == [] {
      assert s == w;
      assert Words(rest) == [];
      assert Words(s) == [w];
      assert Join(Words(s), " ") == w;
      assert CollapseSpaces(s) == w;
      assert !IsJsSpace(w[|w| - 1]);
      assert TrailingSpace(s) == "";
    } else {
      var t := TrimStart(rest);
      SpaceCollapse(rest);
      SpaceTrailing(rest);
      WordsTrimStart(rest);
      assert Words(t) == [];
      assert Words(s) == [w];
      assert Join(Words(s), " ") == w;
      assert CollapseSpaces(t) == [];
      assert CollapseSpaces(rest) == " ";
      assert TrailingSpace(s) == " ";
    }
  }

  /** Collapsing white space in `s`, which does not start with white space, gives `s`'s words joined by
      single spaces, then one space when `s` ends in white space. */
  lemma {:induction false} CollapseWords(s: string)
    requires s == [] || !IsJsSpace(s[0])
    ensures CollapsesToWords(s)
    decreases |s|
  {
    if s == [] {
      assert Words(s) == [];
      assert CollapseSpaces(s) == [];
    } else {
      var rest := s[|WordPrefix(s)|..];
      if rest == [] || TrimStart(rest) == [] {
        CollapseOneWord(s);
      } else {
        CollapseWords(TrimStart(rest));
        CollapseWordsStep(s);
      }
    }
  }

  /** Trimming white space from both sides of a text with no white space at its ends. */
  lemma {:induction false} TrimStartSpaces(a: string, t: string)
    requires AllSpace(a) && (t == [] || !IsJsSpace(t[0]))
    ensures TrimStart(a + t) == t
    decreases |a|
  {
    if a == [] {
      assert a + t == t;
    } else {
      assert (a + t)[1..] == a[1..] + t;
      TrimStartSpaces(a[1..], t);
    }
  }

  lemma {:induction false} TrimEndSpaces(t: string, b: string)
    requires AllSpace(b) && (t == [] || !IsJsSpace(t[|t| - 1]))
    ensures TrimEnd(t + b) == t
    decreases |b|
  {
    if b == [] {
      assert t + b == t;
    } else {
      var init := b[..|b| - 1];
      assert (t + b)[..|t + b| - 1] == t + init;
      TrimEndSpaces(t, init);
    }
  }

  /** The `' '` collapsing leaves at the start of a string that starts with white space. */
  function LeadingSpace(s: string): string {
    if s != [] && IsJsSpace(s[0]) then " " else ""
  }

  /** The space left at either end is white space. */
  lemma EndSpacesAreSpace(s: string, t: string)
    ensures AllSpace(LeadingSpace(s)) && AllSpace(TrailingSpace(t))
  {
  }

  /** Collapsing keeps one space for the leading white space, then collapses what follows it. */
  lemma CollapseLeading(s: string)
    ensures CollapseSpaces(s) == LeadingSpace(s) + CollapseSpaces(TrimStart(s))
  {
    if s != [] && IsJsSpace(s[0]) {
      assert TrimStart(s[1..]) == TrimStart(s);
    } else {
      assert TrimStart(s) == s;
    }
  }

  /** Trimming a text with no white space at its ends from between white space gives that text. */
  lemma TrimAround(a: string, j: string, b: string)
    requires AllSpace(a) && AllSpace(b) && j != [] && NoSpaceAtEnds(j)
    ensures Trim(a + (j + b)) == j
  {
    TrimStartSpaces(a, j + b);
    TrimEndSpaces(j, b);
  }

  /** Trimming nothing but white space leaves nothing. */
  lemma TrimAllSpace(a: string)
    requires AllSpace(a)
    ensures Trim(a) == []
  {
    TrimStartSpaces(a, []);
    assert a + [] == a;
  }

  /** `s.replace(/\s+/g, ' ').trim()` is the words of `s` joined by single spaces. */
  lemma NormalizeSpacesWords(s: string)
    ensures NormalizeSpaces(s) == Join(Words(s), " ")
  {
    var t := TrimStart(s);
    WordsTrimStart(s);
    CollapseWords(t);
    CollapseLeading(s);
    var j := Join(Words(s), " ");
    var e := TrailingSpace(t);
    var lead := LeadingSpace(s);
    EndSpacesAreSpace(s, t);
    assert CollapseSpaces(s) == lead + (j + e);
    if j == [] {
      assert t == [] && e == "";
      assert lead + (j + e) == lead;
      TrimAllSpace(lead);
    } else {
      TrimAround(lead, j, e);
    }
  }
}
