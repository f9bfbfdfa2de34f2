/** The few Python `str` operations the gateway relies on, restricted to
    ASCII: `endswith`, single-character `replace`, and `title`. */
module Text {

  predicate IsUpper(c: char) { 'A' <= c <= 'Z' }

  predicate IsLower(c: char) { 'a' <= c <= 'z' }

  /** The cased characters of ASCII. */
  predicate IsLetter(c: char) { IsUpper(c) || IsLower(c) }

  function ToUpper(c: char): (r: char)
    ensures IsLetter(r) == IsLetter(c)
    ensures !IsLower(r)
    ensures !IsLower(c) ==> r == c
  {
    if IsLower(c) then (c as int - 32) as char else c
  }

  function ToLower(c: char): (r: char)
    ensures IsLetter(r) == IsLetter(c)
    ensures !IsUpper(r)
    ensures !IsUpper(c) ==> r == c
  {
    if IsUpper(c) then (c as int + 32) as char else c
  }

  /** Upper- and lower-casing a character give the same letter. */
  lemma SameLetter(c: char)
    ensures ToLower(ToUpper(c)) == ToLower(c)
    ensures ToUpper(ToLower(c)) == ToUpper(c)
  {
  }

  /** `s.endswith(suffix)` */
  predicate EndsWith(s: string, suffix: string)
  {
    |suffix| <= |s| && s[|s| - |suffix|..] == suffix
  }

  /** `s.replace(from, to)` for one-character `from` and `to`: every
      occurrence of `from` is replaced, nothing else changes. */
  function ReplaceChar(s: string, from: char, to: char): (r: string)
    ensures |r| == |s|
    ensures from != to ==> from !in r
    ensures forall i :: 0 <= i < |s| && s[i] != from ==> r[i] == s[i]
    ensures forall i :: 0 <= i < |s| && s[i] == from ==> r[i] == to
  {
    seq(|s|, i requires 0 <= i < |s| => if s[i] == from then to else s[i])
  }

  /** The character `str.title` produces at a position, given whether the
      character before it was cased. */
  function TitleChar(c: char, previousIsCased: bool): char
  {
    if !IsLetter(c) then c
    else if previousIsCased then ToLower(c)
    else ToUpper(c)
  }

  /** `str.title` as CPython computes it: one left-to-right pass that
      remembers whether the previous character was cased. */
  function TitleFrom(s: string, previousIsCased: bool): (r: string)
    ensures |r| == |s|
  {
    if s == [] then []
    else [TitleChar(s[0], previousIsCased)] + TitleFrom(s[1..], IsLetter(s[0]))
  }

  function Title(s: string): (r: string)
    ensures |r| == |s|
  {
    TitleFrom(s, false)
  }

  /** Position `i` of `s` begins a word: it is the first character, or it
      follows a character that is not a letter. */
  predicate StartsWord(s: string, i: nat)
    requires i < |s|
  {
    i == 0 || !IsLetter(s[i - 1])
  }

  lemma {:induction false} TitleFromAt(s: string, previousIsCased: bool, i: nat)
    requires i < |s|
    ensures TitleFrom(s, previousIsCased)[i]
         == TitleChar(s[i], if i == 0 then previousIsCased else IsLetter(s[i - 1]))
  {
    if i > 0 {
      TitleFromAt(s[1..], IsLetter(s[0]), i - 1);
    }
  }

  /** The per-position meaning of `Title`: a letter is upper-cased when it
      starts a word and lower-cased otherwise; every other character is
      kept. */
  lemma TitleAt(s: string, i: nat)
    requires i < |s|
    ensures Title(s)[i] == if !IsLetter(s[i]) then s[i]
                           else if StartsWord(s, i) then ToUpper(s[i])
                           else ToLower(s[i])
  {
    TitleFromAt(s, false, i);
  }

  /** `Title` keeps characters that are not letters where they were, and
      changes letters only in case. */
  lemma TitleKeepsShape(s: string)
    ensures forall i :: 0 <= i < |s| ==> IsLetter(Title(s)[i]) == IsLetter(s[i])
    ensures forall i :: 0 <= i < |s| && !IsLetter(s[i]) ==> Title(s)[i] == s[i]
    ensures forall i :: 0 <= i < |s| ==> ToLower(Title(s)[i]) == ToLower(s[i])
  {
    forall i | 0 <= i < |s|
      ensures IsLetter(Title(s)[i]) == IsLetter(s[i])
      ensures !IsLetter(s[i]) ==> Title(s)[i] == s[i]
      ensures ToLower(Title(s)[i]) == ToLower(s[i])
    {
      TitleAt(s, i);
      SameLetter(s[i]);
    }
  }

  /** A character that is not a letter occurs in `Title(s)` exactly when it
      occurs in `s`. */
  lemma TitleKeepsNonLetter(s: string, c: char)
    requires !IsLetter(c)
    ensures c in Title(s) <==> c in s
  {
    TitleKeepsShape(s);
    if c in Title(s) {
      var i :| 0 <= i < |s| && Title(s)[i] == c;
      assert s[i] == c;
    }
    if c in s {
      var i :| 0 <= i < |s| && s[i] == c;
      assert Title(s)[i] == c;
    }
  }

  /** Title-casing an already title-cased string changes nothing. */
  lemma TitleIdempotent(s: string)
    ensures Title(Title(s)) == Title(s)
  {
    var t := Title(s);
    TitleKeepsShape(s);
    forall i | 0 <= i < |s|
      ensures Title(t)[i] == t[i]
    {
      TitleAt(s, i);
      TitleAt(t, i);
      SameLetter(s[i]);
    }
  }
}
