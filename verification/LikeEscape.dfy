/** The case-insensitive substring filter: a LIKE pattern built by three successive replacements,
    read by the LIKE predicate of section 8.5 of ISO/IEC 9075-2 with escape character `\`. */
module LikeEscape {

  const ESCAPE := '\\'

  predicate IsMeta(c: char) {
    c == ESCAPE || c == '%' || c == '_'
  }

  /** The LIKE predicate: `%` is any run of characters, `_` any one, an escaped character itself. A
      pattern that ends in the escape character is malformed and matches nothing here. */
  predicate Like(p: string, s: string)
    decreases |p| + |s|
  {
    if p == [] then s == []
    else if p[0] == ESCAPE then |p| >= 2 && s != [] && s[0] == p[1] && Like(p[2..], s[1..])
    else if p[0] == '%' then Like(p[1..], s) || (s != [] && Like(p, s[1..]))
    else s != [] && (p[0] == '_' || s[0] == p[0]) && Like(p[1..], s[1..])
  }

  /** Folding case: character by character, the three special characters staying what they are and
      nothing else becoming one. */
  predicate Folds(fold: char -> char) {
    forall c: char :: (IsMeta(c) || IsMeta(fold(c))) ==> fold(c) == c
  }

  function Folded(s: string, fold: char -> char): string {
    seq(|s|, i requires 0 <= i < |s| => fold(s[i]))
  }

  predicate ILike(p: string, s: string, fold: char -> char) {
    Like(Folded(p, fold), Folded(s, fold))
  }

  // ---- the pattern ---------------------------------------------------------------------

  /** Python's `s.replace(c, text)` for a single character. */
  function Replace(s: string, c: char, text: string): string {
    if s == [] then [] else (if s[0] == c then text else [s[0]]) + Replace(s[1..], c, text)
  }

  /** The three replacements of `ilike_contains`, in its order. */
  function Escaped(term: string): string {
    Replace(Replace(Replace(term, '\\', "\\\\"), '%', "\\%"), '_', "\\_")
  }

  function Pattern(term: string): string {
    "%" + Escaped(term) + "%"
  }

  /** Every special character with the escape character before it. */
  function Quoted(term: string): string {
    if term == [] then []
    else (if IsMeta(term[0]) then [ESCAPE, term[0]] else [term[0]]) + Quoted(term[1..])
  }

  lemma {:induction false} ReplaceAppend(a: string, b: string, c: char, text: string)
    ensures Replace(a + b, c, text) == Replace(a, c, text) + Replace(b, c, text)
  {
    if a == [] {
      assert a + b == b;
    } else {
      assert (a + b)[1..] == a[1..] + b;
      ReplaceAppend(a[1..], b, c, text);
    }
  }

  lemma ReplaceOne(x: char, c: char, text: string)
    ensures Replace([x], c, text) == if x == c then text else [x]
  {
    assert [x][1..] == [];
  }

  lemma ReplacePair(x: char, y: char, c: char, text: string)
    ensures Replace([x, y], c, text) == (if x == c then text else [x]) + if y == c then text else [y]
  {
    assert [x, y] == [x] + [y];
    ReplaceAppend([x], [y], c, text);
    ReplaceOne(x, c, text);
    ReplaceOne(y, c, text);
  }

  lemma EscapedOne(x: char)
    ensures Escaped([x]) == if IsMeta(x) then [ESCAPE, x] else [x]
  {
    hide Replace;
    assert "\\\\" == ['\\', '\\'] && "\\%" == ['\\', '%'] && "\\_" == ['\\', '_'];
    ReplaceOne(x, '\\', "\\\\");
    ReplaceOne(x, '%', "\\%");
    ReplaceOne(x, '_', "\\_");
    ReplacePair('\\', '\\', '%', "\\%");
    ReplacePair('\\', '\\', '_', "\\_");
    ReplacePair('\\', '%', '_', "\\_");
    var a := Replace([x], '\\', "\\\\");
    assert a == if x == ESCAPE then [ESCAPE, ESCAPE] else [x];
    var b := Replace(a, '%', "\\%");
    assert b == if x == ESCAPE || x == '%' then [ESCAPE, x] else [x];
  }

  /** In this order the replacements never touch what an earlier one wrote: the result is the term
      with each of its own special characters escaped once. */
  lemma {:induction false} EscapedIsQuoted(term: string)
    ensures Escaped(term) == Quoted(term)
  {
    hide Replace;
    if term == [] {
      ReplaceNone();
    } else {
      var x, rest := [term[0]], term[1..];
      assert term == x + rest;
      ReplaceAppend(x, rest, '\\', "\\\\");
      var x1, r1 := Replace(x, '\\', "\\\\"), Replace(rest, '\\', "\\\\");
      ReplaceAppend(x1, r1, '%', "\\%");
      ReplaceAppend(Replace(x1, '%', "\\%"), Replace(r1, '%', "\\%"), '_', "\\_");
      EscapedOne(term[0]);
      EscapedIsQuoted(rest);
    }
  }

  lemma ReplaceNone()
    ensures Escaped([]) == []
  {
  }

  lemma {:induction false} QuotedFolds(term: string, fold: char -> char)
    requires Folds(fold)
    ensures Folded(Quoted(term), fold) == Quoted(Folded(term, fold))
  {
    if term != [] {
      QuotedFolds(term[1..], fold);
      assert Folded(term, fold)[1..] == Folded(term[1..], fold);
      var x := if IsMeta(term[0]) then [ESCAPE, term[0]] else [term[0]];
      assert Folded(x + Quoted(term[1..]), fold) == Folded(x, fold) + Folded(Quoted(term[1..]), fold);
    }
  }

  // ---- what it matches -----------------------------------------------------------------

  lemma LikeStep(c: char, q: string, s: string)
    ensures Like((if IsMeta(c) then [ESCAPE, c] else [c]) + q, s) <==> s != [] && s[0] == c && Like(q, s[1..])
  {
    assert ([ESCAPE, c] + q)[2..] == q && ([c] + q)[1..] == q;
  }

  /** A quoted term matches itself and nothing else. */
  lemma {:induction false} QuotedMatches(term: string, rest: string, s: string)
    ensures Like(Quoted(term) + rest, s) <==> |term| <= |s| && s[..|term|] == term && Like(rest, s[|term|..])
    decreases |term|
  {
    hide Like, IsMeta;
    if term == [] {
      assert Quoted(term) + rest == rest && s[0..] == s;
    } else {
      LikeStep(term[0], Quoted(term[1..]) + rest, s);
      var x := if IsMeta(term[0]) then [ESCAPE, term[0]] else [term[0]];
      var q := Quoted(term[1..]) + rest;
      assert Quoted(term) + rest == x + q;
      assert (x + q)[|x|..] == q;
      if s != [] && s[0] == term[0] {
        QuotedMatches(term[1..], rest, s[1..]);
        assert |term| <= |s| ==> s[..|term|] == [s[0]] + s[1..][..|term| - 1] && s[1..][|term| - 1..] == s[|term|..];
        assert term == [term[0]] + term[1..];
      } else {
        assert |term| <= |s| ==> s[..|term|][0] != term[0];
      }
    }
  }

  lemma {:induction false} PercentMatches(q: string, s: string)
    ensures Like("%" + q, s) <==> exists i :: 0 <= i <= |s| && Like(q, s[i..])
    decreases |s|
  {
    var p := "%" + q;
    assert p[1..] == q && s[0..] == s;
    if s != [] {
      PercentMatches(q, s[1..]);
      assert forall i :: 0 <= i < |s| ==> s[1..][i..] == s[i + 1..];
      if i :| 0 < i <= |s| && Like(q, s[i..]) { assert Like(q, s[1..][i - 1..]); }
    }
  }

  lemma PercentMatchesAll(s: string)
    ensures Like("%", s)
  {
    assert "%" == "%" + [];
    PercentMatches([], s);
    assert s[|s|..] == [];
  }

  predicate OccursAt(t: string, s: string, i: int) {
    0 <= i <= |s| - |t| && s[i..i + |t|] == t
  }

  predicate Contains(s: string, t: string) {
    exists i :: 0 <= i <= |s| && OccursAt(t, s, i)
  }

  lemma LiteralMatches(t: string, s: string)
    ensures Like("%" + (Quoted(t) + "%"), s) <==> Contains(s, t)
  {
    hide Like, Quoted;
    PercentMatches(Quoted(t) + "%", s);
    forall i | 0 <= i <= |s| ensures Like(Quoted(t) + "%", s[i..]) <==> OccursAt(t, s, i) {
      QuotedMatches(t, "%", s[i..]);
      if |t| <= |s[i..]| {
        PercentMatchesAll(s[i..][|t|..]);
        assert s[i..][..|t|] == s[i..i + |t|];
      }
    }
  }

  /** The filter is substring search: the pattern matches exactly the strings whose folded form
      contains the folded term, special characters in the term meaning only themselves. */
  lemma PatternIsSubstring(term: string, s: string, fold: char -> char)
    requires Folds(fold)
    ensures ILike(Pattern(term), s, fold) <==> Contains(Folded(s, fold), Folded(term, fold))
  {
    hide Like, Quoted, Escaped, Contains;
    EscapedIsQuoted(term);
    QuotedFolds(term, fold);
    LiteralMatches(Folded(term, fold), Folded(s, fold));
    FoldedPattern(Quoted(term), fold);
  }

  lemma FoldedPattern(q: string, fold: char -> char)
    requires Folds(fold)
    ensures Folded("%" + q + "%", fold) == "%" + (Folded(q, fold) + "%")
  {
    assert fold('%') == '%';
  }
}
