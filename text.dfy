/** String helpers the analytics code takes from Python's `str` type, restricted to ASCII:
 *  case mapping, whitespace trimming, `title()`, `split()`, digit runs and integer formatting. */
module Text {
  import opened Wrappers

  /** The ASCII characters Python's `str.isspace()` accepts: the space, \t \n \v \f \r and the
   *  four separators \x1c to \x1f. */
  predicate IsSpace(c: char)
  {
    c == ' ' || c == '\t' || c == '\n' || c == '\r' || c == '\U{000B}' || c == '\U{000C}' || '\U{001C}' <= c <= '\U{001F}'
  }

  predicate IsDigit(c: char) { '0' <= c <= '9' }
  predicate IsUpper(c: char) { 'A' <= c <= 'Z' }
  predicate IsLower(c: char) { 'a' <= c <= 'z' }
  predicate IsAlpha(c: char) { IsUpper(c) || IsLower(c) }

  function LowerChar(c: char): char { if IsUpper(c) then (c as int + 32) as char else c }
  function UpperChar(c: char): char { if IsLower(c) then (c as int - 32) as char else c }

  /** `str.lower()`. */
  function Lower(s: string): (r: string)
    ensures |r| == |s|
    ensures forall i :: 0 <= i < |s| ==> r[i] == LowerChar(s[i])
  {
    seq(|s|, i requires 0 <= i < |s| => LowerChar(s[i]))
  }

  /** `str.upper()`. */
  function Upper(s: string): (r: string)
    ensures |r| == |s|
    ensures forall i :: 0 <= i < |s| ==> r[i] == UpperChar(s[i])
  {
    seq(|s|, i requires 0 <= i < |s| => UpperChar(s[i]))
  }

  lemma LowerIdempotent(s: string)
    ensures Lower(Lower(s)) == Lower(s)
  {
  }

  /** Strips leading characters of `drop` (`str.lstrip(chars)`). */
  function StripLeft(s: string, drop: set<char>): (r: string)
    ensures |r| <= |s|
  {
    if s != [] && s[0] in drop then StripLeft(s[1..], drop) else s
  }

  /** Strips trailing characters of `drop` (`str.rstrip(chars)`). */
  function StripRight(s: string, drop: set<char>): (r: string)
    ensures |r| <= |s|
  {
    if s != [] && s[|s| - 1] in drop then StripRight(s[..|s| - 1], drop) else s
  }

  lemma {:induction false} StripLeftSpec(s: string, drop: set<char>)
    ensures var r := StripLeft(s, drop);
      && r == s[|s| - |r|..]
      && (r != [] ==> r[0] !in drop)
      && (forall i :: 0 <= i < |s| - |r| ==> s[i] in drop)
  {
    if s != [] && s[0] in drop {
      StripLeftSpec(s[1..], drop);
    }
  }

  lemma {:induction false} StripRightSpec(s: string, drop: set<char>)
    ensures var r := StripRight(s, drop);
      && r == s[..|r|]
      && (r != [] ==> r[|r| - 1] !in drop)
      && (forall i :: |r| <= i < |s| ==> s[i] in drop)
  {
    if s != [] && s[|s| - 1] in drop {
      StripRightSpec(s[..|s| - 1], drop);
    }
  }

  /** `str.strip(chars)`. */
  function Strip(s: string, drop: set<char>): (r: string)
    ensures |r| <= |s|
  {
    StripRight(StripLeft(s, drop), drop)
  }

  /** The stripped string has no end character in `drop`, and every character of it is one of `s`. */
  lemma StripSpec(s: string, drop: set<char>)
    ensures var r := Strip(s, drop);
      && (r != [] ==> r[0] !in drop && r[|r| - 1] !in drop)
      && (forall i :: 0 <= i < |r| ==> r[i] in s)
  {
    var l := StripLeft(s, drop);
    StripLeftSpec(s, drop);
    StripRightSpec(l, drop);
    var r := StripRight(l, drop);
    forall i | 0 <= i < |r| ensures r[i] in s {
      assert r[i] == l[i] == s[|s| - |l| + i];
    }
  }

  /** Stripping twice strips nothing more. */
  lemma StripIdempotent(s: string, drop: set<char>)
    ensures Strip(Strip(s, drop), drop) == Strip(s, drop)
  {
    var r := Strip(s, drop);
    StripSpec(s, drop);
    if r != [] {
      assert StripLeft(r, drop) == r;
      assert StripRight(r, drop) == r;
    }
  }

  const WHITESPACE: set<char> := {' ', '\t', '\n', '\r', '\U{000B}', '\U{000C}', '\U{001C}', '\U{001D}', '\U{001E}', '\U{001F}'}

  lemma WhitespaceIsSpace(c: char)
    ensures c in WHITESPACE <==> IsSpace(c)
  {
  }

  /** `str.strip()` with no argument. */
  function Trim(s: string): string
  {
    Strip(s, WHITESPACE)
  }

  lemma TrimSpec(s: string)
    ensures var r := Trim(s);
      && (r != [] ==> !IsSpace(r[0]) && !IsSpace(r[|r| - 1]))
      && (forall i :: 0 <= i < |r| ==> r[i] in s)
  {
    StripSpec(s, WHITESPACE);
    var r := Trim(s);
    if r != [] {
      WhitespaceIsSpace(r[0]);
      WhitespaceIsSpace(r[|r| - 1]);
    }
  }

  /** A string with no blank at either end is its own trim. */
  lemma TrimNoop(s: string)
    requires s != [] ==> !IsSpace(s[0]) && !IsSpace(s[|s| - 1])
    ensures Trim(s) == s
  {
    if s != [] {
      WhitespaceIsSpace(s[0]);
      WhitespaceIsSpace(s[|s| - 1]);
    }
  }

  /** A name as the column matchers compare it: `str(c).lower().strip()`. */
  function Norm(s: string): string { Trim(Lower(s)) }

  /** `str.title()`: the first cased letter after a non-letter is upper-cased, every other letter lower-cased. */
  function TitleFrom(s: string, prevCased: bool): (r: string)
    ensures |r| == |s|
  {
    if s == [] then []
    else if IsAlpha(s[0]) then
      [if prevCased then LowerChar(s[0]) else UpperChar(s[0])] + TitleFrom(s[1..], true)
    else [s[0]] + TitleFrom(s[1..], false)
  }

  function Title(s: string): string { TitleFrom(s, false) }

  /** Concatenation with a separator (`sep.join(parts)`). */
  function Join(sep: string, parts: seq<string>): string
  {
    if parts == [] then ""
    else if |parts| == 1 then parts[0]
    else parts[0] + sep + Join(sep, parts[1..])
  }

  /** The maximal run of digits at the start of `s`. */
  function LeadingDigits(s: string): (r: string)
    ensures |r| <= |s| && r == s[..|r|]
    ensures forall i :: 0 <= i < |r| ==> IsDigit(r[i])
    ensures |r| < |s| ==> !IsDigit(s[|r|])
  {
    if s != [] && IsDigit(s[0]) then [s[0]] + LeadingDigits(s[1..]) else []
  }

  /** The first maximal digit run (`re.search(r"(\d+)", s)`), or None. */
  function FirstDigitRun(s: string): (r: Option<string>)
    ensures r.Some? ==> r.value != [] && forall i :: 0 <= i < |r.value| ==> IsDigit(r.value[i])
    ensures r.None? <==> forall i :: 0 <= i < |s| ==> !IsDigit(s[i])
  {
    if s == [] then None
    else if IsDigit(s[0]) then Some(LeadingDigits(s))
    else FirstDigitRun(s[1..])
  }

  /** All maximal digit runs, left to right (`re.findall(r"\d+", s)`). */
  function DigitRuns(s: string): (r: seq<string>)
    ensures r == [] <==> forall i :: 0 <= i < |s| ==> !IsDigit(s[i])
    ensures forall k :: 0 <= k < |r| ==> r[k] != [] && forall i :: 0 <= i < |r[k]| ==> IsDigit(r[k][i])
    decreases |s|
  {
    if s == [] then []
    else if IsDigit(s[0]) then
      var d := LeadingDigits(s);
      [d] + DigitRuns(s[|d|..])
    else DigitRuns(s[1..])
  }

  lemma FirstDigitRunIsFirst(s: string)
    ensures FirstDigitRun(s).Some? ==> DigitRuns(s) != [] && FirstDigitRun(s).value == DigitRuns(s)[0]
  {
  }

  function DigitValue(c: char): nat requires IsDigit(c) { c as int - '0' as int }

  /** The integer a digit string denotes (`int("042") == 42`). */
  function DigitsToNat(s: string): nat
    requires forall i :: 0 <= i < |s| ==> IsDigit(s[i])
  {
    if s == [] then 0 else DigitsToNat(s[..|s| - 1]) * 10 + DigitValue(s[|s| - 1])
  }

  function DigitChar(d: nat): (c: char)
    requires d < 10
    ensures IsDigit(c) && DigitValue(c) == d
  {
    ('0' as int + d) as char
  }

  /** Decimal rendering of a natural number without leading zeros (`str(n)`). */
  function NatToString(n: nat): (r: string)
    ensures r != []
  {
    if n < 10 then [DigitChar(n)] else NatToString(n / 10) + [DigitChar(n % 10)]
  }

  /** The rendering is all digits, without a leading zero, and reads back as `n`. */
  lemma {:induction false} NatToStringSpec(n: nat)
    ensures var r := NatToString(n);
      && (forall i :: 0 <= i < |r| ==> IsDigit(r[i]))
      && DigitsToNat(r) == n
      && (|r| > 1 ==> r[0] != '0')
  {
    if n >= 10 {
      NatToStringSpec(n / 10);
      var p := NatToString(n / 10);
      assert NatToString(n)[..|NatToString(n)| - 1] == p;
    }
  }

  /** `str(i)` of an int. */
  function IntToString(i: int): string
  {
    if i < 0 then "-" + NatToString(-i) else NatToString(i)
  }

  /** Single-character replacement (`s.replace(a, b)` with one-character operands). */
  function ReplaceChar(s: string, a: char, b: char): (r: string)
    ensures |r| == |s|
    ensures forall i :: 0 <= i < |s| ==> r[i] == (if s[i] == a then b else s[i])
  {
    if s == [] then [] else [if s[0] == a then b else s[0]] + ReplaceChar(s[1..], a, b)
  }

  /** The key form Python builds with `s.lower().replace(" ", "_")`. */
  function Slug(s: string): string { ReplaceChar(Lower(s), ' ', '_') }

  predicate StartsWith(s: string, p: string) { |p| <= |s| && s[..|p|] == p }
  predicate EndsWith(s: string, p: string) { |p| <= |s| && s[|s| - |p|..] == p }

  /** Substring test (`p in s`). */
  predicate Contains(s: string, p: string)
    decreases |s|
  {
    StartsWith(s, p) || (s != [] && Contains(s[1..], p))
  }
}
