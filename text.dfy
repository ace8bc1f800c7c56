/**
 * ASCII character and string helpers: case folding, title casing and the
 * substring test that Python's `needle in haystack` performs on strings.
 */
module Text {

  predicate IsUpper(c: char) { 'A' <= c <= 'Z' }

  predicate IsLower(c: char) { 'a' <= c <= 'z' }

  /** A cased character in Python's sense, restricted to ASCII. */
  predicate IsLetter(c: char) { IsUpper(c) || IsLower(c) }

  function LowerChar(c: char): char {
    if IsUpper(c) then (c as int + 32) as char else c
  }

  function UpperChar(c: char): char {
    if IsLower(c) then (c as int - 32) as char else c
  }

  /** `s.lower()`, character by character over ASCII. */
  function Lower(s: string): (r: string)
    ensures |r| == |s|
    ensures forall i :: 0 <= i < |s| ==> r[i] == LowerChar(s[i])
  {
    seq(|s|, i requires 0 <= i < |s| => LowerChar(s[i]))
  }

  lemma LowerIdempotent(s: string)
    ensures Lower(Lower(s)) == Lower(s)
  {
  }

  /** `p` is a prefix of `s`. */
  predicate IsPrefix(p: string, s: string) {
    |p| <= |s| && s[..|p|] == p
  }

  /** `needle` occurs in `hay` starting at index `i`. */
  predicate OccursAt(hay: string, needle: string, i: int) {
    0 <= i && i + |needle| <= |hay| && hay[i..i + |needle|] == needle
  }

  /** Python's `needle in hay` for strings, scanning left to right. */
  predicate Contains(hay: string, needle: string)
    decreases |hay|
  {
    IsPrefix(needle, hay) || (|hay| > 0 && Contains(hay[1..], needle))
  }

  /** The scan finds `needle` exactly when it occurs at some position. */
  lemma {:induction false} ContainsIff(hay: string, needle: string)
    ensures Contains(hay, needle) <==> exists i :: OccursAt(hay, needle, i)
    decreases |hay|
  {
    if IsPrefix(needle, hay) {
      assert OccursAt(hay, needle, 0);
    } else if |hay| == 0 {
      assert forall i :: !OccursAt(hay, needle, i);
    } else {
      ContainsIff(hay[1..], needle);
      if Contains(hay[1..], needle) {
        var i :| OccursAt(hay[1..], needle, i);
        assert hay[i + 1..i + 1 + |needle|] == hay[1..][i..i + |needle|];
        assert OccursAt(hay, needle, i + 1);
      } else {
        forall i | 0 < i && OccursAt(hay, needle, i) ensures OccursAt(hay[1..], needle, i - 1) {
          assert hay[1..][i - 1..i - 1 + |needle|] == hay[i..i + |needle|];
        }
      }
    }
  }

  /** A needle holding a character the haystack lacks never occurs in it. */
  lemma NotContainsByChar(hay: string, needle: string, j: nat)
    requires j < |needle| && needle[j] !in hay
    ensures !Contains(hay, needle)
  {
    ContainsIff(hay, needle);
    forall i | 0 <= i && i + |needle| <= |hay| ensures !OccursAt(hay, needle, i) {
      assert hay[i..i + |needle|][j] == hay[i + j];
    }
  }

  /** An occurrence survives any text added around it. */
  lemma ContainsInContext(before: string, hay: string, after: string, needle: string)
    requires Contains(hay, needle)
    ensures Contains(before + hay + after, needle)
  {
    ContainsIff(hay, needle);
    var i :| OccursAt(hay, needle, i);
    var whole := before + hay + after;
    assert whole[|before| + i..|before| + i + |needle|] == hay[i..i + |needle|];
    assert OccursAt(whole, needle, |before| + i);
    ContainsIff(whole, needle);
  }

  /**
   * `s.title()` over ASCII, where `prevCased` tells whether the character
   * before `s` was a letter: a letter after a letter is lowered, any other
   * letter is raised, and non-letters are kept.
   */
  function TitleFrom(s: string, prevCased: bool): (r: string)
    decreases |s|
  {
    if s == [] then []
    else
      var c := s[0];
      var c' := if !IsLetter(c) then c else if prevCased then LowerChar(c) else UpperChar(c);
      [c'] + TitleFrom(s[1..], IsLetter(c))
  }

  /** The character Python's title-casing puts at index `i` of `s`. */
  function TitleCharAt(s: string, i: nat): char
    requires i < |s|
  {
    var c := s[i];
    if !IsLetter(c) then c
    else if i == 0 || !IsLetter(s[i - 1]) then UpperChar(c)
    else LowerChar(c)
  }

  function Title(s: string): (r: string)
    ensures |r| == |s|
    ensures forall i :: 0 <= i < |s| ==> r[i] == TitleCharAt(s, i)
  {
    TitleFromAt(s);
    TitleFrom(s, false)
  }

  lemma {:induction false} TitleFromAt(s: string)
    ensures |TitleFrom(s, false)| == |s|
    ensures forall i :: 0 <= i < |s| ==> TitleFrom(s, false)[i] == TitleCharAt(s, i)
  {
    TitleFromShift(s, false);
  }

  /** Index-wise description of `TitleFrom` for either starting flag. */
  lemma {:induction false} TitleFromShift(s: string, prevCased: bool)
    ensures |TitleFrom(s, prevCased)| == |s|
    ensures forall i :: 0 < i < |s| ==> TitleFrom(s, prevCased)[i] == TitleCharAt(s, i)
    ensures |s| > 0 ==>
              TitleFrom(s, prevCased)[0] ==
              (if !IsLetter(s[0]) then s[0] else if prevCased then LowerChar(s[0]) else UpperChar(s[0]))
    decreases |s|
  {
    if s != [] {
      var t := s[1..];
      TitleFromShift(t, IsLetter(s[0]));
      var r := TitleFrom(s, prevCased);
      forall i | 0 < i < |s| ensures r[i] == TitleCharAt(s, i) {
        assert r[i] == TitleFrom(t, IsLetter(s[0]))[i - 1];
        if i > 1 {
          assert TitleCharAt(t, i - 1) == TitleCharAt(s, i);
        }
      }
    }
  }
}
