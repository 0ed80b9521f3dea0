/**
 * Character and string helpers shared by the backend and frontend models:
 * ASCII case mapping (the model of toLowerCase/toUpperCase), substring search
 * (String.contains / includes), the two whitespace classes (Java's `\s` and
 * JavaScript's `\s`), Java's String.split("\\s+"), String.replace, and the
 * decimal renderings used by String.format.
 */
module Text {

  // ---------------------------------------------------------------- case

  predicate IsUpperAscii(c: char) { 'A' <= c <= 'Z' }
  predicate IsLowerAscii(c: char) { 'a' <= c <= 'z' }
  predicate IsDigit(c: char) { '0' <= c <= '9' }
  predicate IsAsciiLetter(c: char) { IsUpperAscii(c) || IsLowerAscii(c) }

  function LowerChar(c: char): (r: char)
    ensures !IsUpperAscii(r)
    ensures !IsUpperAscii(c) ==> r == c
    ensures IsUpperAscii(c) ==> IsLowerAscii(r) && r as int == c as int + 32
  {
    if IsUpperAscii(c) then (c as int + 32) as char else c
  }

  function UpperChar(c: char): (r: char)
    ensures !IsLowerAscii(r)
    ensures !IsLowerAscii(c) ==> r == c
    ensures IsLowerAscii(c) ==> IsUpperAscii(r) && r as int == c as int - 32
  {
    if IsLowerAscii(c) then (c as int - 32) as char else c
  }

  /** toLowerCase, restricted to ASCII letters. */
  function Lower(s: string): (r: string)
    ensures |r| == |s|
    ensures forall i :: 0 <= i < |s| ==> r[i] == LowerChar(s[i])
  {
    if s == [] then [] else [LowerChar(s[0])] + Lower(s[1..])
  }

  /** toUpperCase, restricted to ASCII letters. */
  function Upper(s: string): (r: string)
    ensures |r| == |s|
    ensures forall i :: 0 <= i < |s| ==> r[i] == UpperChar(s[i])
  {
    if s == [] then [] else [UpperChar(s[0])] + Upper(s[1..])
  }

  /** Lower-casing forgets the case the text was written in. */
  lemma LowerOfUpper(s: string)
    ensures Lower(Upper(s)) == Lower(s)
  {
    assert forall i :: 0 <= i < |s| ==> LowerChar(UpperChar(s[i])) == LowerChar(s[i]);
  }

  // ----------------------------------------------------------- substrings

  predicate StartsWith(s: string, prefix: string)
  {
    |prefix| <= |s| && s[..|prefix|] == prefix
  }

  predicate EndsWith(s: string, suffix: string)
  {
    |suffix| <= |s| && s[|s| - |suffix|..] == suffix
  }

  /** String.contains / String.includes. */
  predicate Contains(s: string, sub: string)
  {
    StartsWith(s, sub) || (s != [] && Contains(s[1..], sub))
  }

  lemma ContainsSelf(s: string)
    ensures Contains(s, s)
  {
    assert s[..|s|] == s;
  }

  /** What occurs in `a` still occurs once something is appended to it. */
  lemma {:induction false} ContainsAppendLeft(a: string, b: string, sub: string)
    requires Contains(a, sub)
    ensures Contains(a + b, sub)
    decreases |a|
  {
    if StartsWith(a, sub) {
      assert (a + b)[..|sub|] == a[..|sub|];
    } else {
      assert (a + b)[1..] == a[1..] + b;
      ContainsAppendLeft(a[1..], b, sub);
    }
  }

  /** What occurs in `b` still occurs once something is put in front of it. */
  lemma {:induction false} ContainsAppendRight(a: string, b: string, sub: string)
    requires Contains(b, sub)
    ensures Contains(a + b, sub)
    decreases |a|
  {
    if a == [] {
      assert a + b == b;
    } else {
      assert (a + b)[1..] == a[1..] + b;
      ContainsAppendRight(a[1..], b, sub);
    }
  }

  /** Two strings that differ at a position inside the prefix do not share it. */
  lemma DifferAt(s: string, prefix: string, k: int)
    requires 0 <= k < |prefix| && k < |s| && s[k] != prefix[k]
    ensures !StartsWith(s, prefix)
  {
  }

  /** indexOf of a character: the first position holding it. */
  function IndexOf(s: string, c: char): (r: int)
    ensures -1 <= r < |s|
    ensures r == -1 <==> c !in s
    ensures r >= 0 ==> s[r] == c && forall k :: 0 <= k < r ==> s[k] != c
  {
    if s == [] then -1
    else if s[0] == c then 0
    else
      var i := IndexOf(s[1..], c);
      assert forall k :: 1 <= k < |s| ==> s[k] == s[1..][k - 1];
      if i == -1 then -1 else i + 1
  }

  /** lastIndexOf of a character: the last position holding it. */
  function LastIndexOf(s: string, c: char): (r: int)
    ensures -1 <= r < |s|
    ensures r == -1 <==> c !in s
    ensures r >= 0 ==> s[r] == c && forall k :: r < k < |s| ==> s[k] != c
  {
    if s == [] then -1
    else if s[|s| - 1] == c then |s| - 1
    else
      var i := LastIndexOf(s[..|s| - 1], c);
      assert forall k :: 0 <= k < |s| - 1 ==> s[k] == s[..|s| - 1][k];
      i
  }

  // ------------------------------------------------------------ whitespace

  /** Java's `\s` (without UNICODE_CHARACTER_CLASS): [ \t\n\x0B\f\r]. */
  predicate IsJavaSpace(c: char)
  {
    c == ' ' || c == '\t' || c == '\n' || c == '\U{000B}' || c == '\U{000C}' || c == '\r'
  }

  /** JavaScript's `\s`: the ECMAScript WhiteSpace and LineTerminator characters. */
  predicate IsJsSpace(c: char)
  {
    IsJavaSpace(c) || c == '\U{00A0}' || c == '\U{1680}' || ('\U{2000}' <= c <= '\U{200A}')
    || c == '\U{2028}' || c == '\U{2029}' || c == '\U{202F}' || c == '\U{205F}'
    || c == '\U{3000}' || c == '\U{FEFF}'
  }

  /** The maximal non-empty runs of non-whitespace characters, left to right. */
  function Runs(s: string): (r: seq<string>)
    ensures forall k :: 0 <= k < |r| ==> r[k] != [] && forall c :: c in r[k] ==> c in s && !IsJavaSpace(c)
    decreases |s|
  {
    if s == [] then []
    else if IsJavaSpace(s[0]) then Runs(s[1..])
    else
      var w := Word(s);
      [w] + Runs(s[|w|..])
  }

  /** The longest prefix of `s` without whitespace. */
  function Word(s: string): (w: string)
    ensures |w| <= |s| && w == s[..|w|]
    ensures forall c :: c in w ==> !IsJavaSpace(c)
    ensures s != [] && !IsJavaSpace(s[0]) ==> w != []
  {
    if s == [] || IsJavaSpace(s[0]) then [] else [s[0]] + Word(s[1..])
  }

  /**
   * Java's `s.split("\\s+")`: the empty string splits into [""]; leading
   * whitespace yields a leading empty token; trailing empty tokens are dropped.
   */
  function SplitOnWhitespace(s: string): (r: seq<string>)
  {
    if s == [] then [""]
    else if IsJavaSpace(s[0]) then (var rs := Runs(s); if rs == [] then [] else [""] + rs)
    else Runs(s)
  }

  /** String.replace(target, replacement): every non-overlapping occurrence, left to right. */
  function ReplaceAll(s: string, target: string, replacement: string): (r: string)
    requires target != []
    ensures !Contains(s, target) ==> r == s
    decreases |s|
  {
    if s == [] then []
    else if StartsWith(s, target) then replacement + ReplaceAll(s[|target|..], target, replacement)
    else [s[0]] + ReplaceAll(s[1..], target, replacement)
  }

  // ---------------------------------------------------------------- joining

  /** Appending to a StringBuilder that already holds `a + b`. */
  lemma AppendAssoc(a: string, b: string, c: string)
    ensures (a + b) + c == a + (b + c)
  {
  }

  /** The renderings of the elements of `s`, concatenated in order (a StringBuilder loop). */
  function JoinMap<T>(s: seq<T>, f: T -> string): string
  {
    if s == [] then "" else JoinMap(s[..|s| - 1], f) + f(s[|s| - 1])
  }

  lemma {:induction false} JoinMapAppend<T>(a: seq<T>, b: seq<T>, f: T -> string)
    ensures JoinMap(a + b, f) == JoinMap(a, f) + JoinMap(b, f)
    decreases |b|
  {
    if b == [] {
      assert a + b == a;
    } else {
      var b' := b[..|b| - 1];
      assert (a + b)[..|a + b| - 1] == a + b';
      assert (a + b)[|a + b| - 1] == b[|b| - 1];
      JoinMapAppend(a, b', f);
    }
  }

  /** The rendering of the i-th element sits between those of the elements before and after it. */
  lemma {:induction false} JoinMapAt<T>(s: seq<T>, f: T -> string, i: int)
    requires 0 <= i < |s|
    ensures JoinMap(s, f) == JoinMap(s[..i], f) + f(s[i]) + JoinMap(s[i + 1..], f)
  {
    var before, after := s[..i], s[i + 1..];
    assert s == before + ([s[i]] + after);
    assert JoinMap([s[i]], f) == f(s[i]) by {
      assert [s[i]][..0] == [];
    }
    calc {
      JoinMap(s, f);
      { JoinMapAppend(before, [s[i]] + after, f); }
      JoinMap(before, f) + JoinMap([s[i]] + after, f);
      { JoinMapAppend([s[i]], after, f); }
      JoinMap(before, f) + (f(s[i]) + JoinMap(after, f));
      { AppendAssoc(JoinMap(before, f), f(s[i]), JoinMap(after, f)); }
      JoinMap(before, f) + f(s[i]) + JoinMap(after, f);
    }
  }

  // -------------------------------------------------------------- numbers

  function DigitChar(d: nat): (c: char)
    requires d < 10
    ensures IsDigit(c)
  {
    ('0' as int + d) as char
  }

  /** The number a string of decimal digits spells, most significant first. */
  function DigitsValue(s: string): int
  {
    if s == [] then 0 else DigitsValue(s[..|s| - 1]) * 10 + (s[|s| - 1] as int - '0' as int)
  }

  /** The decimal digits of `n`, most significant first, without leading zeros. */
  function NatToString(n: nat): (r: string)
    ensures r != [] && forall c :: c in r ==> IsDigit(c)
    ensures DigitsValue(r) == n
    ensures n < 10 ==> |r| == 1
    ensures n < 100 ==> |r| <= 2
    ensures n < 1000 ==> |r| <= 3
    ensures n >= 10 ==> |r| >= 2
    ensures n >= 100 ==> |r| >= 3
    ensures n >= 1000 ==> |r| >= 4
  {
    if n < 10 then [DigitChar(n)] else NatToString(n / 10) + [DigitChar(n % 10)]
  }

  /** Long.toString / "%d". */
  function IntToString(n: int): (r: string)
  {
    if n < 0 then "-" + NatToString(-n) else NatToString(n)
  }

  function Zeros(k: nat): (r: string)
    ensures |r| == k && forall c :: c in r ==> c == '0'
    ensures forall i :: 0 <= i < k ==> r[i] == '0'
  {
    if k == 0 then [] else "0" + Zeros(k - 1)
  }

  /** Only zeros spell zero. */
  lemma {:induction false} ZerosValue(k: nat)
    ensures DigitsValue(Zeros(k)) == 0
  {
    if k > 0 {
      var z := Zeros(k);
      assert z[..k - 1] == Zeros(k - 1);
      assert z[k - 1] == '0';
      ZerosValue(k - 1);
    }
  }

  /** Leading zeros do not change the number a digit string spells. */
  lemma {:induction false} LeadingZerosValue(k: nat, digits: string)
    ensures DigitsValue(Zeros(k) + digits) == DigitsValue(digits)
    decreases |digits|
  {
    var s := Zeros(k) + digits;
    if digits == [] {
      assert s == Zeros(k);
      ZerosValue(k);
    } else {
      var init := digits[..|digits| - 1];
      assert s[..|s| - 1] == Zeros(k) + init;
      assert s[|s| - 1] == digits[|digits| - 1];
      LeadingZerosValue(k, init);
    }
  }

  function PadLeftZeros(digits: string, width: nat): (r: string)
    ensures |r| == if |digits| < width then width else |digits|
    ensures DigitsValue(r) == DigitsValue(digits)
    ensures (forall c :: c in digits ==> IsDigit(c)) ==> forall c :: c in r ==> IsDigit(c)
  {
    if |digits| < width then (LeadingZerosValue(width - |digits|, digits); Zeros(width - |digits|) + digits)
    else digits
  }

  /**
   * String.format("%03d", n): width three, zero padded after the sign. For a
   * non-negative n the digits spell n, three of them below 1000 and exactly
   * as many as n has from 1000 on.
   */
  function Format03d(n: int): (r: string)
    ensures |r| >= 3
    ensures n >= 0 ==> forall c :: c in r ==> IsDigit(c)
    ensures n >= 0 ==> DigitsValue(r) == n
    ensures 0 <= n < 1000 ==> |r| == 3
    ensures n >= 1000 ==> |r| == |NatToString(n)|
  {
    if n < 0 then "-" + PadLeftZeros(NatToString(-n), 2) else PadLeftZeros(NatToString(n), 3)
  }

  /** String.format("%.2f", amount) for an amount held in cents. */
  function FormatCents(cents: int): (r: string)
    decreases if cents < 0 then 1 else 0
  {
    if cents < 0 then "-" + FormatCents(-cents)
    else NatToString(cents / 100) + "." + PadLeftZeros(NatToString(cents % 100), 2)
  }
}
