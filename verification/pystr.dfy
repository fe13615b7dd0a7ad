/**
 * The three Python string methods the core calls: `str.lower()` (boolean
 * query casting), `str.replace("_", " ")` and `str.title()` (operation
 * summaries). Case mapping is modelled on ASCII letters only.
 */
module PyStr {
  predicate IsUpper(c: char) { 'A' <= c <= 'Z' }
  predicate IsLower(c: char) { 'a' <= c <= 'z' }
  /** A cased character in the sense of `str.title()`. */
  predicate IsLetter(c: char) { IsUpper(c) || IsLower(c) }

  function ToLower(c: char): (r: char)
    ensures IsLetter(c) <==> IsLetter(r)
    ensures !IsUpper(r)
    ensures !IsLetter(c) ==> r == c
  {
    if IsUpper(c) then (c as int + 32) as char else c
  }

  function ToUpper(c: char): (r: char)
    ensures IsLetter(c) <==> IsLetter(r)
    ensures !IsLower(r)
    ensures !IsLetter(c) ==> r == c
  {
    if IsLower(c) then (c as int - 32) as char else c
  }

  /** `s.lower()` */
  function Lower(s: string): (r: string)
    ensures |r| == |s|
    ensures forall i :: 0 <= i < |s| ==> r[i] == ToLower(s[i])
  {
    if s == [] then [] else [ToLower(s[0])] + Lower(s[1..])
  }

  /** `s.replace(from, to)` for one-character `from` and `to`. */
  function ReplaceChar(s: string, from: char, to: char): (r: string)
    ensures |r| == |s|
    ensures forall i :: 0 <= i < |s| ==> r[i] == (if s[i] == from then to else s[i])
  {
    if s == [] then [] else [if s[0] == from then to else s[0]] + ReplaceChar(s[1..], from, to)
  }

  /**
   * `s.title()`: a letter that follows a letter is lowered, any other letter
   * is raised, and everything else is copied. `afterLetter` says whether the
   * character before `s` was a letter.
   */
  function TitleFrom(s: string, afterLetter: bool): string
  {
    if s == [] then []
    else
      var c := s[0];
      [if !IsLetter(c) then c else if afterLetter then ToLower(c) else ToUpper(c)]
        + TitleFrom(s[1..], IsLetter(c))
  }

  function Title(s: string): string {
    TitleFrom(s, false)
  }

  /** Each character of `s.title()` depends only on it and its predecessor. */
  lemma {:induction false} TitleAt(s: string, afterLetter: bool, i: nat)
    requires i < |s|
    ensures |TitleFrom(s, afterLetter)| == |s|
    ensures TitleFrom(s, afterLetter)[i] ==
      var prev := if i == 0 then afterLetter else IsLetter(s[i - 1]);
      if !IsLetter(s[i]) then s[i] else if prev then ToLower(s[i]) else ToUpper(s[i])
  {
    if i == 0 {
      TitleLength(s[1..], IsLetter(s[0]));
    } else {
      TitleAt(s[1..], IsLetter(s[0]), i - 1);
      assert s[1..][i - 1] == s[i];
      if i > 1 { assert s[1..][i - 2] == s[i - 1]; }
    }
  }

  lemma {:induction false} TitleLength(s: string, afterLetter: bool)
    ensures |TitleFrom(s, afterLetter)| == |s|
  {
    if s != [] { TitleLength(s[1..], IsLetter(s[0])); }
  }

  /** `str.title()` is idempotent: a title-cased string is its own title. */
  lemma TitleIdempotent(s: string)
    ensures Title(Title(s)) == Title(s)
  {
    var t := Title(s);
    TitleLength(s, false);
    TitleLength(t, false);
    forall i | 0 <= i < |s| ensures Title(t)[i] == t[i] {
      TitleAt(s, false, i);
      TitleAt(t, false, i);
      if i > 0 { TitleAt(s, false, i - 1); }
    }
  }

  /** `c.lower() == l` for a lower-case letter `l`: `c` is `l` or its capital. */
  lemma LowersTo(c: char, l: char)
    requires IsLower(l)
    ensures ToLower(c) == l <==> c == l || c == ToUpper(l)
  {
  }

  /** `raw.lower() == "true"` holds exactly for the four-letter word "true" in any mix of cases. */
  lemma LowerIsTrue(raw: string)
    ensures Lower(raw) == "true" <==>
      && |raw| == 4
      && (raw[0] == 't' || raw[0] == 'T') && (raw[1] == 'r' || raw[1] == 'R')
      && (raw[2] == 'u' || raw[2] == 'U') && (raw[3] == 'e' || raw[3] == 'E')
  {
    if |raw| == 4 {
      var l := Lower(raw);
      FourChars(l, 't', 'r', 'u', 'e');
      assert l[0] == ToLower(raw[0]) && l[1] == ToLower(raw[1]) && l[2] == ToLower(raw[2]) && l[3] == ToLower(raw[3]);
      LowersTo(raw[0], 't');
      LowersTo(raw[1], 'r');
      LowersTo(raw[2], 'u');
      LowersTo(raw[3], 'e');
    }
  }

  /** A four-character string is a given word exactly when its characters are the word's. */
  lemma FourChars(l: string, a: char, b: char, c: char, d: char)
    requires |l| == 4
    ensures l == [a, b, c, d] <==> l[0] == a && l[1] == b && l[2] == c && l[3] == d
  {
    if l[0] == a && l[1] == b && l[2] == c && l[3] == d {
      assert l == [a, b, c, d];
    }
  }
}
