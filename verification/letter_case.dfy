/**
 * ASCII letter case: `String.prototype.toUpperCase` on one character, and
 * a model of lodash's `kebabCase` restricted to ASCII CamelCase names.
 */
module LetterCase {

  predicate IsAsciiUpper(c: char) { 'A' <= c <= 'Z' }

  predicate IsAsciiLower(c: char) { 'a' <= c <= 'z' }

  predicate IsAsciiLetter(c: char) { IsAsciiUpper(c) || IsAsciiLower(c) }

  /** `c.toUpperCase()` for a character of the ASCII range. */
  function ToUpper(c: char): (u: char)
    ensures IsAsciiLower(c) ==> IsAsciiUpper(u)
    ensures !IsAsciiLower(c) ==> u == c
  {
    if IsAsciiLower(c) then (c as int - 32) as char else c
  }

  /** `c.toLowerCase()` for a character of the ASCII range. */
  function ToLower(c: char): (l: char)
    ensures IsAsciiUpper(c) ==> IsAsciiLower(l) && ToUpper(l) == c
    ensures !IsAsciiUpper(c) ==> l == c
  {
    if IsAsciiUpper(c) then (c as int + 32) as char else c
  }

  /**
   * A component-like name made of ASCII words: letters only, an upper-case
   * first letter, and no two upper-case letters in a row (`CoverView`).
   */
  predicate IsAsciiCamelCase(s: string) {
    && |s| > 0
    && IsAsciiUpper(s[0])
    && (forall i :: 0 <= i < |s| ==> IsAsciiLetter(s[i]))
    && (forall i :: 1 <= i < |s| ==> !IsAsciiUpper(s[i]) || !IsAsciiUpper(s[i - 1]))
  }

  /** The characters of `s` with every hyphen removed. */
  function WithoutHyphens(s: string): string {
    if s == [] then []
    else (if s[0] == '-' then [] else [s[0]]) + WithoutHyphens(s[1..])
  }

  /** `s.toLowerCase()` on the ASCII range, character by character. */
  function LowerAll(s: string): (l: string)
    ensures |l| == |s|
    ensures forall i :: 0 <= i < |s| ==> l[i] == ToLower(s[i])
  {
    if s == [] then [] else [ToLower(s[0])] + LowerAll(s[1..])
  }

  /** The number of ASCII capitals in `s`. */
  function Capitals(s: string): nat {
    if s == [] then 0 else (if IsAsciiUpper(s[0]) then 1 else 0) + Capitals(s[1..])
  }

  /** Lower-cases a name and puts a hyphen before every later capital: `CoverView` => `cover-view`. */
  function KebabCase(s: string): string {
    if s == [] then [] else [ToLower(s[0])] + Hyphenate(s[1..])
  }

  /** The tail of a kebab-cased name: each capital becomes a hyphen and its lower-case letter. */
  function Hyphenate(t: string): string {
    if t == [] then []
    else (if IsAsciiUpper(t[0]) then ['-', ToLower(t[0])] else [t[0]]) + Hyphenate(t[1..])
  }

  /** One step of `Hyphenate`, for a character put in front. */
  lemma HyphenateCons(c: char, t: string)
    ensures Hyphenate([c] + t) == (if IsAsciiUpper(c) then ['-', ToLower(c)] else [c]) + Hyphenate(t)
  {
  }

  lemma {:induction false} HyphenateShape(t: string)
    ensures |Hyphenate(t)| == |t| + Capitals(t)
    ensures forall i :: 0 <= i < |Hyphenate(t)| ==> !IsAsciiUpper(Hyphenate(t)[i])
    ensures (forall i :: 0 <= i < |t| ==> t[i] != '-') ==> WithoutHyphens(Hyphenate(t)) == LowerAll(t)
  {
    if t != [] {
      var rest := Hyphenate(t[1..]);
      HyphenateShape(t[1..]);
      if IsAsciiUpper(t[0]) {
        var h := ['-', ToLower(t[0])] + rest;
        assert Hyphenate(t) == h;
        assert h[1..] == [ToLower(t[0])] + rest;
        assert ([ToLower(t[0])] + rest)[1..] == rest;
      } else {
        var h := [t[0]] + rest;
        assert Hyphenate(t) == h;
        assert h[1..] == rest;
      }
    }
  }

  /**
   * A kebab-cased tag has no capital; with its hyphens removed it is the name
   * lower-cased; it has one hyphen more per capital after the first character.
   */
  lemma KebabCaseShape(s: string)
    ensures s == [] <==> KebabCase(s) == []
    ensures s != [] ==> |KebabCase(s)| == |s| + Capitals(s[1..]) && KebabCase(s)[0] == ToLower(s[0])
    ensures forall i :: 0 <= i < |KebabCase(s)| ==> !IsAsciiUpper(KebabCase(s)[i])
    ensures (forall i :: 0 <= i < |s| ==> s[i] != '-') ==> WithoutHyphens(KebabCase(s)) == LowerAll(s)
  {
    if s != [] {
      HyphenateShape(s[1..]);
      var k := [ToLower(s[0])] + Hyphenate(s[1..]);
      assert k[1..] == Hyphenate(s[1..]);
    }
  }

  /** A run of lower-case letters is kept as it is. */
  lemma {:induction false} HyphenateLower(t: string)
    requires forall i :: 0 <= i < |t| ==> IsAsciiLower(t[i])
    ensures Hyphenate(t) == t
  {
    if t != [] {
      HyphenateLower(t[1..]);
      HyphenateCons(t[0], t[1..]);
      assert [t[0]] + t[1..] == t;
    }
  }

  /** A capital followed by lower-case letters: `View` => `-view`. */
  lemma HyphenateWord(c: char, t: string)
    requires IsAsciiUpper(c)
    requires forall i :: 0 <= i < |t| ==> IsAsciiLower(t[i])
    ensures Hyphenate([c] + t) == ['-', ToLower(c)] + t
  {
    HyphenateCons(c, t);
    HyphenateLower(t);
  }

  /** `Hyphenate` distributes over concatenation. */
  lemma {:induction false} HyphenateAppend(a: string, b: string)
    ensures Hyphenate(a + b) == Hyphenate(a) + Hyphenate(b)
  {
    if a != [] {
      HyphenateAppend(a[1..], b);
      assert (a + b)[0] == a[0];
      assert (a + b)[1..] == a[1..] + b;
    } else {
      assert a + b == b;
    }
  }

  /**
   * A two-word name, capital and lower-case run twice, gets exactly one hyphen:
   * `CoverView` => `cover-view`.
   */
  lemma KebabCaseTwoWords(c: char, first: string, d: char, second: string)
    requires IsAsciiUpper(c) && IsAsciiUpper(d)
    requires forall i :: 0 <= i < |first| ==> IsAsciiLower(first[i])
    requires forall i :: 0 <= i < |second| ==> IsAsciiLower(second[i])
    ensures KebabCase([c] + first + [d] + second) == [ToLower(c)] + first + ['-', ToLower(d)] + second
  {
    var s := [c] + first + [d] + second;
    assert s[1..] == first + ([d] + second);
    HyphenateLower(first);
    HyphenateWord(d, second);
    HyphenateAppend(first, [d] + second);
  }

  /** The example of the collector's documentation. */
  lemma CoverViewTag(name: string)
    requires name == "CoverView"
    ensures KebabCase(name) == "cover-view"
  {
    var over, iew := "over", "iew";
    assert name == ['C'] + over + ['V'] + iew;
    KebabCaseTwoWords('C', over, 'V', iew);
  }

  /** The inverse direction: capitalises the first letter and every letter after a hyphen. */
  function PascalCase(k: string): string {
    if k == [] then [] else [ToUpper(k[0])] + Unhyphenate(k[1..])
  }

  function Unhyphenate(t: string): string {
    if t == [] then []
    else if t[0] == '-' && |t| >= 2 then [ToUpper(t[1])] + Unhyphenate(t[2..])
    else [t[0]] + Unhyphenate(t[1..])
  }

  lemma {:induction false} HyphenateRoundTrip(t: string)
    requires forall i :: 0 <= i < |t| ==> IsAsciiLetter(t[i])
    ensures Unhyphenate(Hyphenate(t)) == t
  {
    if t != [] {
      HyphenateRoundTrip(t[1..]);
      var rest := Hyphenate(t[1..]);
      if IsAsciiUpper(t[0]) {
        assert Hyphenate(t) == ['-', ToLower(t[0])] + rest;
        assert (['-', ToLower(t[0])] + rest)[2..] == rest;
      } else {
        assert Hyphenate(t) == [t[0]] + rest;
        assert ([t[0]] + rest)[1..] == rest;
      }
    }
  }

  /** Kebab-casing an ASCII CamelCase name loses nothing: it can be undone. */
  lemma KebabCaseRoundTrip(s: string)
    requires IsAsciiCamelCase(s)
    ensures PascalCase(KebabCase(s)) == s
  {
    HyphenateRoundTrip(s[1..]);
    assert ([ToLower(s[0])] + Hyphenate(s[1..]))[1..] == Hyphenate(s[1..]);
    assert s == [s[0]] + s[1..];
  }

  /** Hence two different ASCII CamelCase names never give the same tag. */
  lemma KebabCaseInjective(a: string, b: string)
    requires IsAsciiCamelCase(a) && IsAsciiCamelCase(b)
    requires KebabCase(a) == KebabCase(b)
    ensures a == b
  {
    KebabCaseRoundTrip(a);
    KebabCaseRoundTrip(b);
  }
}
