/** The pieces of Go's `strings` and `unicode` packages that the content-type check uses. */
module GoStrings {

  /** `unicode.IsSpace`: the Latin-1 spaces '\t', '\n', '\v', '\f', '\r', ' ', U+0085, U+00A0,
      and the other characters with the Unicode White_Space property. */
  predicate IsSpace(c: char) {
    || c == '\t' || c == '\n' || c == '\U{0B}' || c == '\U{0C}' || c == '\r' || c == ' '
    || c == '\U{85}' || c == '\U{A0}' || c == '\U{1680}'
    || ('\U{2000}' <= c <= '\U{200A}')
    || c == '\U{2028}' || c == '\U{2029}' || c == '\U{202F}' || c == '\U{205F}' || c == '\U{3000}'
  }

  predicate IsAsciiUpper(c: char) {
    'A' <= c <= 'Z'
  }

  /** `unicode.ToLower` restricted to the characters whose lower case is ASCII: 'A'..'Z',
      U+0130 (capital I with dot, lowered to 'i') and U+212A (Kelvin sign, lowered to 'k').
      Every other character is kept. */
  function LowerRune(c: char): (r: char)
    ensures IsSpace(r) <==> IsSpace(c)
    ensures r == ';' <==> c == ';'
    ensures !IsAsciiUpper(r)
  {
    if IsAsciiUpper(c) then (c as int + 32) as char
    else if c == '\U{130}' then 'i'
    else if c == '\U{212A}' then 'k'
    else c
  }

  /** `strings.ToLower`, character by character. */
  function ToLower(s: string): (r: string)
    ensures |r| == |s|
  {
    if s == [] then [] else [LowerRune(s[0])] + ToLower(s[1..])
  }

  /** ToLower lowers each character in place. */
  lemma {:induction false} ToLowerAt(s: string)
    ensures forall i :: 0 <= i < |s| ==> ToLower(s)[i] == LowerRune(s[i])
  {
    if s != [] {
      ToLowerAt(s[1..]);
    }
  }

  /** `s` without its leading white space. */
  function TrimLeft(s: string): (r: string)
    ensures |r| <= |s|
    ensures r != [] ==> !IsSpace(r[0])
  {
    if s != [] && IsSpace(s[0]) then TrimLeft(s[1..]) else s
  }

  /** TrimLeft removes a prefix of `s`, and only white space. */
  lemma {:induction false} TrimLeftRemovesSpace(s: string)
    ensures TrimLeft(s) == s[|s| - |TrimLeft(s)|..]
    ensures forall i :: 0 <= i < |s| - |TrimLeft(s)| ==> IsSpace(s[i])
  {
    if s != [] && IsSpace(s[0]) {
      TrimLeftRemovesSpace(s[1..]);
    }
  }

  /** `s` without its trailing white space. */
  function TrimRight(s: string): (r: string)
    ensures |r| <= |s|
    ensures r != [] ==> !IsSpace(r[|r| - 1])
  {
    if s != [] && IsSpace(s[|s| - 1]) then TrimRight(s[..|s| - 1]) else s
  }

  /** TrimRight removes a suffix of `s`, and only white space. */
  lemma {:induction false} TrimRightRemovesSpace(s: string)
    ensures TrimRight(s) == s[..|TrimRight(s)|]
    ensures forall i :: |TrimRight(s)| <= i < |s| ==> IsSpace(s[i])
  {
    if s != [] && IsSpace(s[|s| - 1]) {
      TrimRightRemovesSpace(s[..|s| - 1]);
    }
  }

  /** `strings.TrimSpace`. */
  function TrimSpace(s: string): string {
    TrimRight(TrimLeft(s))
  }

  /** `strings.Split(s, string(sep))[0]`: the text before the first `sep`, or all of `s`. */
  function BeforeFirst(s: string, sep: char): (r: string)
    ensures r <= s
    ensures sep !in r
    ensures |r| < |s| ==> s[|r|] == sep
  {
    if s == [] || s[0] == sep then [] else [s[0]] + BeforeFirst(s[1..], sep)
  }

  /** The text before the first separator is determined by the characters up to it. */
  lemma BeforeFirstOfJoin(x: string, sep: char, y: string)
    requires sep !in x
    ensures BeforeFirst(x + [sep] + y, sep) == x
    ensures BeforeFirst(x, sep) == x
  {
    var s := x + [sep] + y;
    var r := BeforeFirst(s, sep);
    assert s[|x|] == sep;
    assert forall i :: 0 <= i < |r| ==> s[i] != sep;
    assert s[..|x|] == x;
  }

  /** Leading white space makes no difference to TrimSpace. */
  lemma TrimSpaceLeadingSpace(c: char, s: string)
    requires IsSpace(c)
    ensures TrimSpace([c] + s) == TrimSpace(s)
  {
  }

  /** TrimSpace leaves a string alone when neither end is white space. */
  lemma TrimSpaceUnpadded(s: string)
    requires s != [] ==> !IsSpace(s[0]) && !IsSpace(s[|s| - 1])
    ensures TrimSpace(s) == s
  {
  }

  /** ToLower leaves a string alone when no character of it has an ASCII lower case other than itself. */
  lemma ToLowerUnchanged(s: string)
    requires forall i :: 0 <= i < |s| ==> LowerRune(s[i]) == s[i]
    ensures ToLower(s) == s
  {
  }

  predicate IsLowerCaseWord(s: string) {
    forall i :: 0 <= i < |s| ==> 'a' <= s[i] <= 'z' || s[i] == '/'
  }

  /** A word of lower-case ASCII letters and slashes passes through the media-type
      normalisation unchanged. */
  lemma LowerCaseWordIsNormal(s: string)
    requires IsLowerCaseWord(s)
    ensures BeforeFirst(s, ';') == s
    ensures TrimSpace(s) == s
    ensures ToLower(s) == s
  {
    LowerCaseWordSplit(s);
    LowerCaseWordTrim(s);
    LowerCaseWordLower(s);
  }

  lemma LowerCaseWordSplit(s: string)
    requires IsLowerCaseWord(s)
    ensures BeforeFirst(s, ';') == s
  {
  }

  lemma LowerCaseWordTrim(s: string)
    requires IsLowerCaseWord(s)
    ensures TrimSpace(s) == s
  {
  }

  lemma LowerCaseWordLower(s: string)
    requires IsLowerCaseWord(s)
    ensures ToLower(s) == s
  {
  }

  /** Lower-casing a string and then splitting it gives the lower-cased split. */
  lemma {:induction false} ToLowerBeforeFirst(s: string)
    ensures ToLower(BeforeFirst(s, ';')) == BeforeFirst(ToLower(s), ';')
  {
    if s != [] && s[0] != ';' {
      var t := ToLower(s);
      ToLowerAt(s);
      ToLowerAt(s[1..]);
      assert t[1..] == ToLower(s[1..]);
      ToLowerBeforeFirst(s[1..]);
      assert ToLower([s[0]] + BeforeFirst(s[1..], ';')) == [t[0]] + ToLower(BeforeFirst(s[1..], ';'));
    }
  }

  lemma {:induction false} ToLowerTrimLeft(s: string)
    ensures ToLower(TrimLeft(s)) == TrimLeft(ToLower(s))
  {
    ToLowerAt(s);
    if s != [] && IsSpace(s[0]) {
      ToLowerAt(s[1..]);
      assert ToLower(s)[1..] == ToLower(s[1..]);
      ToLowerTrimLeft(s[1..]);
    }
  }

  lemma {:induction false} ToLowerTrimRight(s: string)
    ensures ToLower(TrimRight(s)) == TrimRight(ToLower(s))
  {
    ToLowerAt(s);
    if s != [] && IsSpace(s[|s| - 1]) {
      ToLowerAt(s[..|s| - 1]);
      assert ToLower(s)[..|s| - 1] == ToLower(s[..|s| - 1]);
      ToLowerTrimRight(s[..|s| - 1]);
    }
  }

  /** Lower-casing commutes with TrimSpace, since it maps white space to white space and
      nothing else to white space. */
  lemma ToLowerTrimSpace(s: string)
    ensures ToLower(TrimSpace(s)) == TrimSpace(ToLower(s))
  {
    ToLowerTrimLeft(s);
    ToLowerTrimRight(TrimLeft(s));
  }
}
