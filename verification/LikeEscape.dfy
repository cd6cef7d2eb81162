/** Searching run requests: an escaped LIKE pattern means "contains", whatever the query's characters. */
module LikeEscape {
  import opened Wrappers
  import Text

  const ESCAPE := '\\'

  predicate Special(c: char) {
    c == ESCAPE || c == '%' || c == '_'
  }

  /** The query with the escape character in front of every wildcard and of itself. */
  function Escape(q: string): string {
    if q == "" then "" else EscapeOne(q[0]) + Escape(q[1..])
  }

  function EscapeOne(c: char): string {
    if Special(c) then [ESCAPE, c] else [c]
  }

  /** The pattern a search builds; a blank query searches for nothing. */
  function SearchPattern(q: string): Option<string> {
    if Text.Strip(q) == "" then None else Some("%" + Escape(Text.Strip(q)) + "%")
  }

  // ---- The LIKE predicate, section 8.5 of ISO/IEC 9075-2 -----------------------------------------------

  datatype Token = Literal(c: char) | OneCharacter | AnyString

  /** The pattern's parts; None where the escape character stands before nothing it may escape. */
  function Tokens(pattern: string): Option<seq<Token>> {
    if pattern == "" then Some([])
    else if pattern[0] == ESCAPE then
      if |pattern| >= 2 && Special(pattern[1]) then Prepend(Literal(pattern[1]), Tokens(pattern[2..])) else None
    else
      Prepend(if pattern[0] == '%' then AnyString else if pattern[0] == '_' then OneCharacter else Literal(pattern[0]),
              Tokens(pattern[1..]))
  }

  function Prepend(t: Token, rest: Option<seq<Token>>): Option<seq<Token>> {
    if rest.None? then None else Some([t] + rest.value)
  }

  /** Whether a string is a match, characters being compared after folding their case. */
  ghost predicate Matches(tokens: seq<Token>, s: string, fold: char -> char)
    decreases |tokens|
  {
    if tokens == [] then s == ""
    else match tokens[0]
      case Literal(c) => s != "" && fold(s[0]) == fold(c) && Matches(tokens[1..], s[1..], fold)
      case OneCharacter => s != "" && Matches(tokens[1..], s[1..], fold)
      case AnyString => exists k :: 0 <= k <= |s| && Matches(tokens[1..], s[k..], fold)
  }

  ghost predicate Like(pattern: string, s: string, fold: char -> char) {
    Tokens(pattern).Some? && Matches(Tokens(pattern).value, s, fold)
  }

  // ---- Escaping preserves meaning ------------------------------------------------------------------

  function Literals(q: string): (tokens: seq<Token>)
    ensures |tokens| == |q|
  {
    if q == "" then [] else [Literal(q[0])] + Literals(q[1..])
  }

  lemma EscapedCharacter(c: char, rest: string)
    ensures Tokens(EscapeOne(c) + rest) == Prepend(Literal(c), Tokens(rest))
  {
    var pattern := EscapeOne(c) + rest;
    if Special(c) {
      assert pattern[0] == ESCAPE && pattern[1] == c && pattern[2..] == rest;
    } else {
      assert pattern[0] == c && pattern[1..] == rest;
    }
  }

  /** The escaped query is read as the query's own characters. */
  lemma {:induction false} EscapedThenMore(q: string, more: string)
    requires Tokens(more).Some?
    ensures Tokens(Escape(q) + more) == Some(Literals(q) + Tokens(more).value)
  {
    var t := Tokens(more).value;
    if q == "" {
      assert Escape(q) + more == more && Literals(q) + t == t;
    } else {
      EscapedThenMore(q[1..], more);
      EscapedCharacter(q[0], Escape(q[1..]) + more);
      assert Escape(q) + more == EscapeOne(q[0]) + (Escape(q[1..]) + more);
      assert Literals(q) + t == [Literal(q[0])] + (Literals(q[1..]) + t);
    }
  }

  lemma WildcardFirst(pattern: string)
    requires pattern != "" && (pattern[0] == '%' || pattern[0] == '_')
    ensures Tokens(pattern) == Prepend(if pattern[0] == '%' then AnyString else OneCharacter, Tokens(pattern[1..]))
  {
  }

  lemma PercentAlone()
    ensures Tokens("%") == Some([AnyString])
  {
    WildcardFirst("%");
    assert "%"[1..] == "" && Tokens("") == Some([]);
    assert [AnyString] + [] == [AnyString];
  }

  predicate FoldedAt(q: string, s: string, i: int, fold: char -> char) {
    0 <= i <= |s| - |q| && forall j :: 0 <= j < |q| ==> fold(s[i + j]) == fold(q[j])
  }

  /** The query is a substring up to case. */
  ghost predicate ContainsFolded(s: string, q: string, fold: char -> char) {
    exists i :: FoldedAt(q, s, i, fold)
  }

  /** Literals followed by % match exactly the strings that begin with them. */
  lemma {:induction false} PrefixMatch(q: string, s: string, fold: char -> char)
    ensures Matches(Literals(q) + [AnyString], s, fold) <==> FoldedAt(q, s, 0, fold)
    decreases |q|
  {
    var tokens := Literals(q) + [AnyString];
    if q == "" {
      assert tokens == [AnyString] && tokens[1..] == [];
      assert Matches([], s[|s|..], fold);
    } else {
      assert tokens[0] == Literal(q[0]) && tokens[1..] == Literals(q[1..]) + [AnyString];
      if s != "" {
        PrefixMatch(q[1..], s[1..], fold);
        assert forall j :: 1 <= j < |q| && j < |s| ==> s[1..][j - 1] == s[j] && q[1..][j - 1] == q[j];
        if FoldedAt(q[1..], s[1..], 0, fold) && fold(s[0]) == fold(q[0]) {
          forall j | 0 <= j < |q|
            ensures fold(s[j]) == fold(q[j])
          {
            if j > 0 { assert fold(s[1..][j - 1]) == fold(q[1..][j - 1]); }
          }
        }
        if FoldedAt(q, s, 0, fold) {
          forall j | 0 <= j < |q[1..]|
            ensures fold(s[1..][0 + j]) == fold(q[1..][j])
          {
            assert fold(s[0 + (j + 1)]) == fold(q[j + 1]);
          }
        }
      }
    }
  }

  /** The escaped query between two % matches a text exactly when the query is a substring of it, up to
      case: no character of the query acts as a wildcard and none is lost. */
  lemma EscapedPatternMeansContains(q: string, s: string, fold: char -> char)
    ensures Like("%" + Escape(q) + "%", s, fold) <==> ContainsFolded(s, q, fold)
  {
    var pattern := "%" + Escape(q) + "%";
    assert pattern[0] == '%' && pattern[1..] == Escape(q) + "%";
    PercentAlone();
    EscapedThenMore(q, "%");
    WildcardFirst(pattern);
    var tokens := [AnyString] + (Literals(q) + [AnyString]);
    assert Tokens(pattern) == Some(tokens);
    assert tokens[1..] == Literals(q) + [AnyString];
    if k :| 0 <= k <= |s| && Matches(tokens[1..], s[k..], fold) {
      PrefixMatch(q, s[k..], fold);
      assert FoldedAt(q, s, k, fold);
    }
    if i :| FoldedAt(q, s, i, fold) {
      assert FoldedAt(q, s[i..], 0, fold);
      PrefixMatch(q, s[i..], fold);
      assert Matches(tokens[1..], s[i..], fold);
    }
  }

  /** A search for a query with some ink in it finds exactly the texts that contain the trimmed query, up to
      case; a blank query has no pattern. */
  lemma SearchFindsContaining(q: string, s: string, fold: char -> char)
    ensures SearchPattern(q).None? <==> Text.Blank(q, Text.PythonSpace)
    ensures SearchPattern(q).Some? ==>
              (Like(SearchPattern(q).value, s, fold) <==> ContainsFolded(s, Text.Strip(q), fold))
  {
    Text.TrimEmptyIff(q, Text.PythonSpace);
    EscapedPatternMeansContains(Text.Strip(q), s, fold);
  }

  /** Different queries never share a pattern. */
  lemma {:induction false} EscapeIsInjective(p: string, q: string)
    requires Escape(p) == Escape(q)
    ensures p == q
  {
    EscapedThenMore(p, "");
    EscapedThenMore(q, "");
    assert Escape(p) + "" == Escape(p) && Escape(q) + "" == Escape(q);
    assert Literals(p) + [] == Literals(p) && Literals(q) + [] == Literals(q);
    LiteralsDiffer(p, q);
  }

  lemma {:induction false} LiteralsDiffer(p: string, q: string)
    requires Literals(p) == Literals(q)
    ensures p == q
  {
    if p != "" && q != "" {
      assert Literals(p)[0] == Literals(q)[0];
      assert Literals(p)[1..] == Literals(p[1..]) && Literals(q)[1..] == Literals(q[1..]);
      LiteralsDiffer(p[1..], q[1..]);
    }
  }

  /** Without the escaping a query of one underscore matches texts that do not contain it. */
  lemma UnescapedQueryOvermatches()
    ensures Like("%_%", "a", c => c) && !ContainsFolded("a", "_", c => c)
  {
    var tokens := [AnyString, OneCharacter, AnyString];
    assert "%_%"[1..] == "_%" && "_%"[1..] == "%" && "%"[1..] == "";
    PercentAlone();
    WildcardFirst("_%");
    WildcardFirst("%_%");
    assert [AnyString] + ([OneCharacter] + [AnyString]) == tokens;
    assert Tokens("%_%") == Some(tokens);
    assert Matches([], "a"[1..][0..], c => c);
    assert tokens[1..] == [OneCharacter, AnyString] && tokens[1..][1..] == [AnyString] && [AnyString][1..] == ([]);
    assert Matches([AnyString], "a"[1..], c => c);
    assert Matches(tokens[1..], "a"[0..], c => c);
  }
}
