/** The string operations the modelled code leans on: trimming, joining and splitting lines. */
module Text {
  /** Characters removed by Python's str.strip(). */
  predicate PythonSpace(c: char) {
    '\t' <= c <= '\r' || '\U{1C}' <= c <= ' ' || c == '\U{85}' || c == '\U{A0}' || WideSpace(c)
  }

  /** Characters removed by JavaScript's String.prototype.trim(). */
  predicate JavaScriptSpace(c: char) {
    '\t' <= c <= '\r' || c == ' ' || c == '\U{A0}' || c == '\U{FEFF}' || WideSpace(c)
  }

  predicate WideSpace(c: char) {
    c == '\U{1680}' || '\U{2000}' <= c <= '\U{200A}' || c == '\U{2028}' || c == '\U{2029}' || c == '\U{202F}'
    || c == '\U{205F}' || c == '\U{3000}'
  }

  function TrimLeft(s: string, space: char -> bool): string {
    if s != "" && space(s[0]) then TrimLeft(s[1..], space) else s
  }

  function TrimRight(s: string, space: char -> bool): string {
    if s != "" && space(s[|s| - 1]) then TrimRight(s[..|s| - 1], space) else s
  }

  function Trim(s: string, space: char -> bool): string {
    TrimRight(TrimLeft(s, space), space)
  }

  function Strip(s: string): string {
    Trim(s, PythonSpace)
  }

  const TITLE_LENGTH := 256

  /** A title as it is stored: trimmed, and cut to the width of its column. */
  function Title(s: string): (title: string)
    ensures title <= Strip(s) && |title| == if |Strip(s)| <= 256 then |Strip(s)| else 256
  {
    if |Strip(s)| <= TITLE_LENGTH then Strip(s) else Strip(s)[..TITLE_LENGTH]
  }

  /** No character of s is worth keeping. */
  predicate Blank(s: string, space: char -> bool) {
    forall i :: 0 <= i < |s| ==> space(s[i])
  }

  predicate Trimmed(s: string, space: char -> bool) {
    s != "" ==> !space(s[0]) && !space(s[|s| - 1])
  }

  /** Trimming empties a string exactly when every character of it is white space. */
  lemma {:induction false} TrimEmptyIff(s: string, space: char -> bool)
    ensures Trim(s, space) == "" <==> Blank(s, space)
  {
    TrimLeftEmptyIff(s, space);
    var l := TrimLeft(s, space);
    if l != "" {
      TrimLeftStopsAtInk(s, space);
      TrimRightKeepsInk(l, space, 0);
    }
  }

  lemma {:induction false} TrimLeftEmptyIff(s: string, space: char -> bool)
    ensures TrimLeft(s, space) == "" <==> Blank(s, space)
  {
    if s != "" && space(s[0]) {
      TrimLeftEmptyIff(s[1..], space);
      if Blank(s[1..], space) {
        forall i | 0 <= i < |s|
          ensures space(s[i])
        {
          assert i > 0 ==> s[i] == s[1..][i - 1];
        }
      }
    }
  }

  lemma {:induction false} TrimLeftStopsAtInk(s: string, space: char -> bool)
    requires TrimLeft(s, space) != ""
    ensures !space(TrimLeft(s, space)[0])
  {
    if space(s[0]) { TrimLeftStopsAtInk(s[1..], space); }
  }

  lemma {:induction false} TrimRightKeepsInk(s: string, space: char -> bool, i: nat)
    requires i < |s| && !space(s[i])
    ensures i < |TrimRight(s, space)| && TrimRight(s, space)[i] == s[i]
  {
    if space(s[|s| - 1]) { TrimRightKeepsInk(s[..|s| - 1], space, i); }
  }

  lemma {:induction false} TrimRightStopsAtInk(s: string, space: char -> bool)
    ensures TrimRight(s, space) <= s
    ensures TrimRight(s, space) != "" ==> !space(TrimRight(s, space)[|TrimRight(s, space)| - 1])
  {
    if s != "" && space(s[|s| - 1]) { TrimRightStopsAtInk(s[..|s| - 1], space); }
  }

  lemma {:induction false} TrimLeftKeepsCharacters(s: string, space: char -> bool)
    ensures forall c :: c in TrimLeft(s, space) ==> c in s
  {
    if s != "" && space(s[0]) { TrimLeftKeepsCharacters(s[1..], space); }
  }

  /** Trimmed text has no white space at either end and no character the text did not have. */
  lemma TrimKeepsOnlyInk(s: string, space: char -> bool)
    ensures Trimmed(Trim(s, space), space)
    ensures forall c :: c in Trim(s, space) ==> c in s
  {
    var l := TrimLeft(s, space);
    TrimLeftKeepsCharacters(s, space);
    TrimRightStopsAtInk(l, space);
    if l != "" { TrimLeftStopsAtInk(s, space); }
  }

  lemma TrimOfTrimmed(s: string, space: char -> bool)
    requires Trimmed(s, space)
    ensures Trim(s, space) == s
  {
  }

  /** A leading space before already trimmed text disappears. */
  lemma TrimDropsOneSpace(s: string, space: char -> bool)
    requires Trimmed(s, space) && space(' ')
    ensures Trim(" " + s, space) == s
  {
    assert (" " + s)[0] == ' ' && (" " + s)[1..] == s;
    assert TrimLeft(" " + s, space) == s;
    TrimOfTrimmed(s, space);
  }

  function Join(lines: seq<string>, separator: string): string {
    if |lines| == 0 then ""
    else if |lines| == 1 then lines[0]
    else lines[0] + separator + Join(lines[1..], separator)
  }

  predicate StartsWith(s: string, prefix: string) {
    |prefix| <= |s| && s[..|prefix|] == prefix
  }

  predicate StandsAt(part: string, s: string, i: int) {
    0 <= i <= |s| - |part| && s[i..i + |part|] == part
  }

  ghost predicate Contains(s: string, part: string) {
    exists i :: StandsAt(part, s, i)
  }

  lemma {:induction false} TrimLeftIsSuffix(s: string, space: char -> bool) returns (i: nat)
    ensures i <= |s| && TrimLeft(s, space) == s[i..] && Blank(s[..i], space)
  {
    i := 0;
    if s != "" && space(s[0]) {
      i := TrimLeftIsSuffix(s[1..], space);
      i := i + 1;
      assert forall k :: 0 < k < i ==> s[k] == s[1..][..i - 1][k - 1];
    }
  }

  lemma {:induction false} TrimRightIsPrefix(s: string, space: char -> bool) returns (j: nat)
    ensures j <= |s| && TrimRight(s, space) == s[..j] && Blank(s[j..], space)
  {
    j := |s|;
    if s != "" && space(s[j - 1]) {
      j := TrimRightIsPrefix(s[..j - 1], space);
      assert forall k :: j <= k < |s| - 1 ==> s[k] == s[..|s| - 1][j..][k - j];
    }
  }

  /** Trimming cuts a slice out of the text and leaves white space on both sides of it. */
  lemma TrimIsSlice(s: string, space: char -> bool) returns (i: nat, j: nat)
    ensures i <= j <= |s| && Trim(s, space) == s[i..j] && Blank(s[..i], space) && Blank(s[j..], space)
  {
    i := TrimLeftIsSuffix(s, space);
    j := TrimRightIsPrefix(s[i..], space);
    j := i + j;
    assert s[i..][j - i..] == s[j..];
  }

  lemma SliceOfSlice<T>(s: seq<T>, a: nat, b: nat, c: nat, d: nat)
    requires a <= b <= |s| && c <= d <= b - a
    ensures s[a..b][c..d] == s[a + c..a + d]
  {
    forall k | 0 <= k < d - c
      ensures s[a..b][c..d][k] == s[a + c..a + d][k]
    {
      assert s[a..b][c..d][k] == s[a..b][c + k];
    }
  }

  lemma SliceInside(s: string, line: string, at: nat, p: nat, q: nat)
    requires p <= q <= |line| && at + |line| <= |s| && s[at..at + |line|] == line
    ensures s[at + p..at + q] == line[p..q]
  {
    SliceOfSlice(s, at, at + |line|, p, q);
  }

  lemma InkIsOutside(s: string, space: char -> bool, i: nat, j: nat, k: nat)
    requires i <= j <= |s| && Blank(s[..i], space) && Blank(s[j..], space)
    requires k < |s| && !space(s[k])
    ensures i <= k < j
  {
  }

  /** A slice lies in every wider one. */
  lemma SliceStands(s: string, i: nat, a: nat, c: nat, j: nat)
    requires i <= a <= c <= j <= |s|
    ensures StandsAt(s[a..c], s[i..j], a - i)
  {
    SliceOfSlice(s, i, j, a - i, c - i);
  }

  /** Whatever surrounds it, the trimmed line is inside the trimmed whole. */
  lemma InkSurvivesTrim(before: string, line: string, after: string, space: char -> bool)
    ensures Contains(Trim(before + line + after, space), Trim(line, space))
  {
    var s, part := before + line + after, Trim(line, space);
    var whole := Trim(s, space);
    if part == "" {
      assert StandsAt(part, whole, 0);
    } else {
      var p, q := TrimIsSlice(line, space);
      var i, j := TrimIsSlice(s, space);
      TrimKeepsOnlyInk(line, space);
      var b := |before|;
      assert s[b + p] == part[0] && s[b + q - 1] == part[|part| - 1];
      InkIsOutside(s, space, i, j, b + p);
      InkIsOutside(s, space, i, j, b + q - 1);
      SliceInside(s, line, b, p, q);
      SliceStands(s, i, b + p, b + q, j);
    }
  }

  /** A joined text has each of its lines inside, with the rest before and after. */
  lemma {:induction false} JoinAround(lines: seq<string>, separator: string, k: nat) returns (before: string, after: string)
    requires k < |lines|
    ensures Join(lines, separator) == before + lines[k] + after
  {
    if |lines| == 1 {
      before, after := "", "";
    } else if k == 0 {
      before, after := "", separator + Join(lines[1..], separator);
    } else {
      before, after := JoinAround(lines[1..], separator, k - 1);
      before := lines[0] + separator + before;
    }
  }
}
