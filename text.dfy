/** String primitives the monitor takes from Python's `str` type. */
module Text {

  /** `prefix` occurs at the start of `s`. */
  predicate IsPrefix(prefix: string, s: string) {
    |prefix| <= |s| && s[..|prefix|] == prefix
  }

  /** Python's `sub in s` on strings. */
  predicate Contains(s: string, sub: string)
    decreases |s|
  {
    IsPrefix(sub, s) || (s != [] && Contains(s[1..], sub))
  }

  /** The whitespace characters that Python's `str.rstrip()` removes. */
  predicate IsSpace(c: char) {
    c == ' ' || ('\t' <= c <= '\r') || ('\U{1C}' <= c <= '\U{1F}')
    || c == '\U{85}' || c == '\U{A0}' || c == '\U{1680}'
    || ('\U{2000}' <= c <= '\U{200A}') || c == '\U{2028}' || c == '\U{2029}'
    || c == '\U{202F}' || c == '\U{205F}' || c == '\U{3000}'
  }

  /** Python's `s.rstrip()`: drops trailing whitespace. */
  function RStrip(s: string): (r: string)
    ensures IsPrefix(r, s)
    ensures r == [] || !IsSpace(r[|r| - 1])
    ensures forall i :: |r| <= i < |s| ==> IsSpace(s[i])
    decreases |s|
  {
    if s == [] || !IsSpace(s[|s| - 1]) then s else RStrip(s[..|s| - 1])
  }

  predicate IsUpper(c: char) { 'A' <= c <= 'Z' }
  predicate IsLower(c: char) { 'a' <= c <= 'z' }
  predicate IsCased(c: char) { IsUpper(c) || IsLower(c) }

  function ToUpper(c: char): char { if IsLower(c) then (c as int - 32) as char else c }
  function ToLower(c: char): char { if IsUpper(c) then (c as int + 32) as char else c }

  /**
   * Python's `s.title()` on ASCII letters: a cased character is upper-cased when
   * the character before it is not cased, and lower-cased otherwise.
   */
  function TitleFrom(s: string, afterCased: bool): (r: string)
    ensures |r| == |s|
    ensures forall i :: 0 <= i < |s| ==> (IsCased(r[i]) <==> IsCased(s[i]))
    ensures forall i :: 0 <= i < |s| && !IsCased(s[i]) ==> r[i] == s[i]
    ensures forall i :: 0 <= i < |s| ==> ToLower(r[i]) == ToLower(s[i])
    decreases |s|
  {
    if s == [] then []
    else
      var c := s[0];
      var d := if !IsCased(c) then c else if afterCased then ToLower(c) else ToUpper(c);
      [d] + TitleFrom(s[1..], IsCased(c))
  }

  /** Title keeps every character up to case, and touches only letters. */
  function Title(s: string): (r: string)
    ensures |r| == |s|
    ensures forall i :: 0 <= i < |s| ==> ToLower(r[i]) == ToLower(s[i])
    ensures forall i :: 0 <= i < |s| && !IsCased(s[i]) ==> r[i] == s[i]
  {
    TitleFrom(s, false)
  }

  /**
   * A letter comes out upper-case exactly when it starts a word: it is the
   * first character and no cased character precedes it, or the character
   * before it is not cased.
   */
  lemma {:induction false} TitleFromCase(s: string, afterCased: bool, i: nat)
    requires i < |s| && IsCased(s[i])
    ensures IsUpper(TitleFrom(s, afterCased)[i]) <==> (if i == 0 then !afterCased else !IsCased(s[i - 1]))
    decreases i
  {
    var c := s[0];
    var d := if !IsCased(c) then c else if afterCased then ToLower(c) else ToUpper(c);
    var rest := TitleFrom(s[1..], IsCased(c));
    assert TitleFrom(s, afterCased) == [d] + rest;
    if i > 0 {
      assert ([d] + rest)[i] == rest[i - 1];
      TitleFromCase(s[1..], IsCased(c), i - 1);
    }
  }

  /** In `Title(s)` exactly the letters that start a word are upper-case. */
  lemma TitleWords(s: string)
    ensures forall i :: 0 <= i < |s| && IsCased(s[i]) ==>
      (IsUpper(Title(s)[i]) <==> (i == 0 || !IsCased(s[i - 1])))
  {
    forall i | 0 <= i < |s| && IsCased(s[i])
      ensures IsUpper(Title(s)[i]) <==> (i == 0 || !IsCased(s[i - 1]))
    {
      TitleFromCase(s, false, i);
    }
  }
}
