/** Trimming and lower-casing, on ASCII text. */
module Text {

  predicate IsSpace(c: char) {
    c == ' ' || c == '\t' || c == '\n' || c == '\r' || c == '\U{000B}' || c == '\U{000C}'
  }

  function TrimLeft(s: string): string {
    if s != [] && IsSpace(s[0]) then TrimLeft(s[1..]) else s
  }

  function TrimRight(s: string): string {
    if s != [] && IsSpace(s[|s| - 1]) then TrimRight(s[..|s| - 1]) else s
  }

  function Trim(s: string): string {
    TrimRight(TrimLeft(s))
  }

  function LowerChar(c: char): char {
    if 'A' <= c <= 'Z' then (c as int + 32) as char else c
  }

  function Lower(s: string): string {
    seq(|s|, i requires 0 <= i < |s| => LowerChar(s[i]))
  }

  function Normalize(s: string): string {
    Lower(Trim(s))
  }

  /** Equal up to case and surrounding space. */
  predicate SameText(s: string, t: string) {
    Normalize(s) == Normalize(t)
  }

  predicate Trimmed(s: string) {
    s == [] || (!IsSpace(s[0]) && !IsSpace(s[|s| - 1]))
  }

  lemma {:induction false} TrimLeftStarts(s: string)
    ensures TrimLeft(s) != [] ==> !IsSpace(TrimLeft(s)[0])
  {
    if s != [] && IsSpace(s[0]) { TrimLeftStarts(s[1..]); }
  }

  lemma {:induction false} TrimRightEnds(s: string)
    ensures TrimRight(s) != [] ==> !IsSpace(TrimRight(s)[|TrimRight(s)| - 1])
    ensures TrimRight(s) <= s
  {
    if s != [] && IsSpace(s[|s| - 1]) { TrimRightEnds(s[..|s| - 1]); }
  }

  lemma TrimTrims(s: string)
    ensures Trimmed(Trim(s))
  {
    TrimLeftStarts(s);
    TrimRightEnds(TrimLeft(s));
  }

  lemma TrimOfTrimmed(s: string)
    requires Trimmed(s)
    ensures Trim(s) == s
  {
  }

  lemma LowerKeepsSpaces(c: char)
    ensures IsSpace(LowerChar(c)) == IsSpace(c)
  {
  }

  lemma NormalizeIsStable(s: string)
    ensures Trim(Trim(s)) == Trim(s)
    ensures Trim(Normalize(s)) == Normalize(s) && Normalize(Trim(s)) == Normalize(s)
    ensures Normalize(Normalize(s)) == Normalize(s)
  {
    TrimTrims(s);
    var t := Trim(s);
    TrimOfTrimmed(t);
    if t != [] {
      LowerKeepsSpaces(t[0]);
      LowerKeepsSpaces(t[|t| - 1]);
    }
    TrimOfTrimmed(Lower(t));
    assert Lower(Lower(t)) == Lower(t);
  }

  // The order of strings, character by character

  predicate Less(s: string, t: string) {
    if t == [] then false
    else if s == [] then true
    else if s[0] != t[0] then s[0] < t[0]
    else Less(s[1..], t[1..])
  }

  lemma {:induction false} LessIsTotal(s: string, t: string)
    ensures s == t || Less(s, t) || Less(t, s)
  {
    if s != [] && t != [] && s[0] == t[0] {
      LessIsTotal(s[1..], t[1..]);
      assert s == [s[0]] + s[1..] && t == [t[0]] + t[1..];
    }
  }

  lemma {:induction false} LessIsTransitive(s: string, t: string, u: string)
    requires Less(s, t) && Less(t, u)
    ensures Less(s, u)
  {
    if s != [] && s[0] == t[0] == u[0] {
      LessIsTransitive(s[1..], t[1..], u[1..]);
    }
  }

  lemma {:induction false} LessIsIrreflexive(s: string)
    ensures !Less(s, s)
  {
    if s != [] { LessIsIrreflexive(s[1..]); }
  }

  /** `Less` is the order of strings: by the first character that differs, and a prefix comes first. */
  ghost predicate ComesFirst(s: string, t: string) {
    s < t || exists i :: 0 <= i < |s| && i < |t| && s[..i] == t[..i] && s[i] < t[i]
  }

  lemma {:induction false} LessIsLexicographic(s: string, t: string)
    ensures Less(s, t) <==> ComesFirst(s, t)
  {
    if s != [] && t != [] && s[0] == t[0] {
      LessIsLexicographic(s[1..], t[1..]);
      TailComesFirst(s, t);
    } else if s != [] && t != [] {
      HeadsDecide(s, t);
    }
  }

  lemma HeadsDecide(s: string, t: string)
    requires s != [] && t != [] && s[0] != t[0]
    ensures ComesFirst(s, t) <==> s[0] < t[0]
  {
    assert s[..0] == t[..0];
    forall i | 0 < i <= |s| && i <= |t| ensures s[..i] != t[..i] {
      assert s[..i][0] == s[0] && t[..i][0] == t[0];
    }
  }

  lemma TailComesFirst(s: string, t: string)
    requires s != [] && t != [] && s[0] == t[0]
    ensures ComesFirst(s[1..], t[1..]) <==> ComesFirst(s, t)
  {
    assert s == [s[0]] + s[1..] && t == [t[0]] + t[1..];
    if i :| 0 <= i < |s[1..]| && i < |t[1..]| && s[1..][..i] == t[1..][..i] && s[1..][i] < t[1..][i] {
      assert s[..i + 1] == [s[0]] + s[1..][..i] && t[..i + 1] == [t[0]] + t[1..][..i];
      assert s[i + 1] < t[i + 1];
    }
    if i :| 0 <= i < |s| && i < |t| && s[..i] == t[..i] && s[i] < t[i] {
      assert i > 0;
      assert s[1..][..i - 1] == s[..i][1..] && t[1..][..i - 1] == t[..i][1..];
      assert s[1..][i - 1] < t[1..][i - 1];
    }
  }

  // What trimming and lower-casing do

  predicate Blank(s: string) {
    forall i :: 0 <= i < |s| ==> IsSpace(s[i])
  }

  /** `t` is `s` without all space at both ends, and without anything else. */
  ghost predicate IsCutOut(s: string, t: string) {
    Trimmed(t) && exists i, j :: 0 <= i <= j <= |s| && t == s[i..j] && Blank(s[..i]) && Blank(s[j..])
  }

  lemma {:induction false} LeftIsBlank(s: string) returns (i: nat)
    ensures i <= |s| && TrimLeft(s) == s[i..] && Blank(s[..i])
  {
    i := 0;
    if s != [] && IsSpace(s[0]) {
      i := LeftIsBlank(s[1..]);
      assert s[..i + 1] == [s[0]] + s[1..][..i];
      i := i + 1;
    }
  }

  lemma {:induction false} RightIsBlank(s: string) returns (j: nat)
    ensures j <= |s| && TrimRight(s) == s[..j] && Blank(s[j..])
  {
    j := |s|;
    if s != [] && IsSpace(s[|s| - 1]) {
      j := RightIsBlank(s[..|s| - 1]);
      assert s[j..] == s[..|s| - 1][j..] + [s[|s| - 1]];
    }
  }

  lemma TrimCutsOut(s: string)
    ensures IsCutOut(s, Trim(s))
  {
    TrimTrims(s);
    var i := LeftIsBlank(s);
    var u := s[i..];
    var j := RightIsBlank(u);
    assert u[..j] == s[i..i + j] && u[j..] == s[i + j..];
  }

  lemma CutOutIsUnique(s: string, t: string, u: string)
    requires IsCutOut(s, t) && IsCutOut(s, u)
    ensures t == u
  {
    var i, j :| 0 <= i <= j <= |s| && t == s[i..j] && Blank(s[..i]) && Blank(s[j..]);
    var k, l :| 0 <= k <= l <= |s| && u == s[k..l] && Blank(s[..k]) && Blank(s[l..]);
    SpaceOutside(s, i, j);
    SpaceOutside(s, k, l);
    SameCut(s, i, j, k, l);
  }

  lemma SameCut(s: string, i: nat, j: nat, k: nat, l: nat)
    requires i <= j <= |s| && k <= l <= |s| && Trimmed(s[i..j]) && Trimmed(s[k..l])
    requires SpaceIn(s, 0, i) && SpaceIn(s, j, |s|) && SpaceIn(s, 0, k) && SpaceIn(s, l, |s|)
    ensures s[i..j] == s[k..l]
  {
    if i < j { Edges(s, i, j, k, l); }
    if k < l { Edges(s, k, l, i, j); }
  }

  /** Characters at the edges of one cut are no space, so they lie within the other. */
  lemma Edges(s: string, i: nat, j: nat, k: nat, l: nat)
    requires i < j <= |s| && k <= l <= |s| && Trimmed(s[i..j]) && SpaceIn(s, 0, k) && SpaceIn(s, l, |s|)
    ensures k <= i && j <= l
  {
    assert s[i..j][0] == s[i] && s[i..j][j - i - 1] == s[j - 1];
  }

  lemma SpaceOutside(s: string, i: nat, j: nat)
    requires i <= j <= |s| && Blank(s[..i]) && Blank(s[j..])
    ensures SpaceIn(s, 0, i) && SpaceIn(s, j, |s|)
  {
    assert forall n :: 0 <= n < i ==> s[..i][n] == s[n];
    assert forall n :: j <= n < |s| ==> s[j..][n - j] == s[n];
  }

  predicate SpaceIn(s: string, first: nat, end: nat) {
    forall n :: first <= n < end && n < |s| ==> IsSpace(s[n])
  }

  /** Exactly the space at both ends is cut off. */
  lemma TrimMeans(s: string, t: string)
    ensures Trim(s) == t <==> IsCutOut(s, t)
  {
    TrimCutsOut(s);
    if IsCutOut(s, t) { CutOutIsUnique(s, t, Trim(s)); }
  }

  lemma EmptyCutIsBlank(s: string)
    ensures IsCutOut(s, "") <==> Blank(s)
  {
    if Blank(s) {
      assert "" == s[0..0] && Blank(s[..0]) && Blank(s[0..]);
    }
    if IsCutOut(s, "") {
      var i, j :| 0 <= i <= j <= |s| && "" == s[i..j] && Blank(s[..i]) && Blank(s[j..]);
      SpaceOutside(s, i, j);
    }
  }

  lemma BlankByTrim(s: string)
    ensures Trim(s) == "" <==> Blank(s)
  {
    TrimMeans(s, "");
    EmptyCutIsBlank(s);
  }

  const CAPITALS := "ABCDEFGHIJKLMNOPQRSTUVWXYZ"
  const SMALL := "abcdefghijklmnopqrstuvwxyz"

  /** Exactly the capitals become small letters, each its own. */
  lemma LowerMeans(s: string)
    ensures |Lower(s)| == |s|
    ensures forall i, k :: 0 <= i < |s| && 0 <= k < 26 && s[i] == CAPITALS[k] ==> Lower(s)[i] == SMALL[k]
    ensures forall i :: 0 <= i < |s| && (forall k :: 0 <= k < 26 ==> s[i] != CAPITALS[k]) ==> Lower(s)[i] == s[i]
  {
    LettersInOrder();
    forall i | 0 <= i < |s| && 'A' <= s[i] <= 'Z' ensures exists k :: 0 <= k < 26 && s[i] == CAPITALS[k] {
      var k := s[i] as int - 'A' as int;
      assert s[i] == CAPITALS[k];
    }
  }

  lemma LettersInOrder()
    ensures forall k :: 0 <= k < 26 ==> CAPITALS[k] as int == 'A' as int + k && SMALL[k] as int == 'a' as int + k
  {
  }
}
