/**
 * The JavaScript string and number built-ins the core relies on, following ECMA-262:
 * `String.prototype.trim`, `indexOf`/`includes`, `replace` with a string pattern (including the
 * `$`-patterns of GetSubstitution), `parseInt` without a radix, and the decimal form that
 * `Number.prototype.toString` gives a safe integer. Two simplifications: a string is a sequence
 * of code points, not of UTF-16 code units, so lengths and cuts differ for characters outside
 * the Basic Multilingual Plane; and numbers are unbounded integers, not doubles, so `parseInt`
 * does not round beyond 2^53.
 */
module JsStrings {
  import opened Wrappers

  // ---------------------------------------------------------------------------------------------
  // Whitespace and trim
  // ---------------------------------------------------------------------------------------------

  /** The WhiteSpace and LineTerminator code points of ECMA-262 (sections 12.2 and 12.3): the set
      that `trim` removes and `parseInt` skips. The Zs entries are those of current Unicode. */
  predicate IsWhiteSpace(c: char) {
    var k := c as int;
    k == 0x09 || k == 0x0A || k == 0x0B || k == 0x0C || k == 0x0D || k == 0x20 ||
    k == 0xA0 || k == 0x1680 || (0x2000 <= k <= 0x200A) || k == 0x2028 || k == 0x2029 ||
    k == 0x202F || k == 0x205F || k == 0x3000 || k == 0xFEFF
  }

  /** Length of the whitespace run at the start of s. */
  function LeadingSpace(s: string): (k: nat)
    ensures k <= |s|
    ensures forall i :: 0 <= i < k ==> IsWhiteSpace(s[i])
    ensures k < |s| ==> !IsWhiteSpace(s[k])
  {
    if |s| > 0 && IsWhiteSpace(s[0]) then 1 + LeadingSpace(s[1..]) else 0
  }

  /** Index where the whitespace run at the end of s begins. */
  function TrailingStart(s: string): (k: nat)
    ensures k <= |s|
    ensures forall i :: k <= i < |s| ==> IsWhiteSpace(s[i])
    ensures 0 < k ==> !IsWhiteSpace(s[k - 1])
  {
    if |s| > 0 && IsWhiteSpace(s[|s| - 1]) then TrailingStart(s[..|s| - 1]) else |s|
  }

  /** `s.trim()`: s without its leading and trailing whitespace; a slice of s that starts after
      the leading whitespace. */
  function Trim(s: string): (r: string)
    ensures LeadingSpace(s) + |r| <= |s|
    ensures r == s[LeadingSpace(s)..LeadingSpace(s) + |r|]
  {
    var k := LeadingSpace(s);
    s[k..k + TrailingStart(s[k..])]
  }

  /** What trim removes is whitespace and what it keeps neither starts nor ends with any; the
      result is empty exactly when s is all whitespace. */
  lemma TrimShape(s: string)
    ensures forall i :: 0 <= i < LeadingSpace(s) ==> IsWhiteSpace(s[i])
    ensures forall i :: LeadingSpace(s) + |Trim(s)| <= i < |s| ==> IsWhiteSpace(s[i])
    ensures Trim(s) != [] ==> !IsWhiteSpace(Trim(s)[0]) && !IsWhiteSpace(Trim(s)[|Trim(s)| - 1])
    ensures Trim(s) == [] <==> forall i :: 0 <= i < |s| ==> IsWhiteSpace(s[i])
  {
    var k := LeadingSpace(s);
    var t := s[k..];
    var e := TrailingStart(t);
    var r := Trim(s);
    assert |r| == e;
    forall i | k + e <= i < |s| ensures IsWhiteSpace(s[i]) {
      assert s[i] == t[i - k];
    }
    assert e == 0 ==> k == |s|;
    if e != 0 {
      assert r[0] == s[k] && r[e - 1] == t[e - 1];
    }
  }

  /** Trimming twice is trimming once. */
  lemma {:induction false} TrimIdempotent(s: string)
    ensures Trim(Trim(s)) == Trim(s)
  {
    var r := Trim(s);
    TrimShape(s);
    assert LeadingSpace(r) == 0;
    assert TrailingStart(r[LeadingSpace(r)..]) == |r| by {
      assert r[LeadingSpace(r)..] == r;
    }
  }

  // ---------------------------------------------------------------------------------------------
  // Occurrences: indexOf and includes
  // ---------------------------------------------------------------------------------------------

  /** The pattern occurs in s starting at index i. */
  predicate OccursAt(s: string, pattern: string, i: nat) {
    i + |pattern| <= |s| && s[i..i + |pattern|] == pattern
  }

  /** `s.indexOf(pattern, from)`: the first occurrence at or after from; None stands for -1. */
  function IndexOfFrom(s: string, pattern: string, from: nat): (r: Option<nat>)
    requires from <= |s|
    ensures r.Some? ==> from <= r.value && OccursAt(s, pattern, r.value)
    ensures r.Some? ==> forall j :: from <= j < r.value ==> !OccursAt(s, pattern, j)
    ensures r.None? ==> forall j :: from <= j <= |s| ==> !OccursAt(s, pattern, j)
    decreases |s| - from
  {
    if OccursAt(s, pattern, from) then Some(from)
    else if from == |s| then None
    else IndexOfFrom(s, pattern, from + 1)
  }

  /** `s.indexOf(pattern)`. */
  function IndexOf(s: string, pattern: string): (r: Option<nat>)
    ensures r.Some? ==> OccursAt(s, pattern, r.value)
    ensures r.Some? ==> forall j :: 0 <= j < r.value ==> !OccursAt(s, pattern, j)
    ensures r.None? <==> forall j :: 0 <= j <= |s| ==> !OccursAt(s, pattern, j)
  {
    IndexOfFrom(s, pattern, 0)
  }

  /** An occurrence that no earlier position could start (the character there is not the
      pattern's first) is the one indexOf finds. */
  lemma IndexOfAt(s: string, pattern: string, i: nat)
    requires |pattern| > 0 && OccursAt(s, pattern, i)
    requires forall j :: 0 <= j < i ==> s[j] != pattern[0]
    ensures IndexOf(s, pattern) == Some(i)
  {
    forall j | 0 <= j < i ensures !OccursAt(s, pattern, j) {
      assert j + |pattern| <= |s| ==> s[j..j + |pattern|][0] == s[j];
    }
  }

  /** `s.includes(pattern)`: the empty pattern is in every string, a string holds each of its
      prefixes, and nothing longer than the string is in it. */
  predicate Includes(s: string, pattern: string): (b: bool)
    ensures |pattern| == 0 ==> b
    ensures pattern <= s ==> b
    ensures b ==> |pattern| <= |s|
  {
    IndexOf(s, pattern).Some?
  }

  /** includes holds exactly when the pattern occurs somewhere. */
  lemma IncludesIffOccurs(s: string, pattern: string)
    ensures Includes(s, pattern) <==> exists i :: 0 <= i <= |s| && OccursAt(s, pattern, i)
  {
    var r := IndexOf(s, pattern);
    if r.Some? {
      assert 0 <= r.value <= |s| && OccursAt(s, pattern, r.value);
    }
  }

  // ---------------------------------------------------------------------------------------------
  // replace with a string pattern
  // ---------------------------------------------------------------------------------------------

  /** GetSubstitution (section 22.1.3.18.1 of ECMA-262, 2022 edition) for a match without capture
      groups and without named captures: `$$` gives `$`, `$&` the matched text, `` $` `` the text
      before the match and `$'` the text after it; every other `$` (including `$n` and `$<`) is
      copied literally. A replacement without `$` is inserted as it is. */
  function GetSubstitution(replacement: string, matched: string, before: string, after: string): (r: string)
    ensures '$' !in replacement ==> r == replacement
    decreases |replacement|
  {
    if |replacement| == 0 then ""
    else if replacement[0] == '$' && |replacement| >= 2 && replacement[1] == '$' then
      "$" + GetSubstitution(replacement[2..], matched, before, after)
    else if replacement[0] == '$' && |replacement| >= 2 && replacement[1] == '&' then
      matched + GetSubstitution(replacement[2..], matched, before, after)
    else if replacement[0] == '$' && |replacement| >= 2 && replacement[1] == '`' then
      before + GetSubstitution(replacement[2..], matched, before, after)
    else if replacement[0] == '$' && |replacement| >= 2 && replacement[1] == '\'' then
      after + GetSubstitution(replacement[2..], matched, before, after)
    else
      assert '$' !in replacement ==> '$' !in replacement[1..] by {
        if '$' !in replacement {
          forall i | 0 <= i < |replacement[1..]| ensures replacement[1..][i] != '$' {
            assert replacement[1..][i] == replacement[i + 1];
          }
        }
      }
      assert replacement == [replacement[0]] + replacement[1..];
      [replacement[0]] + GetSubstitution(replacement[1..], matched, before, after)
  }

  /** The two-character `$`-patterns on their own: `$$` gives `$`, `$&` the matched text,
      `` $` `` the text before the match, `$'` the text after it; any other pair is copied. */
  lemma GetSubstitutionPair(c: char, matched: string, before: string, after: string)
    ensures GetSubstitution(['$', c], matched, before, after) ==
            if c == '$' then "$" else if c == '&' then matched
            else if c == '`' then before else if c == '\'' then after else ['$', c]
  {
    var r := ['$', c];
    assert r[2..] == [] && r[1..] == [c] && [c][1..] == [];
  }

  /** `s.replace(pattern, replacement)` with a string pattern: only the FIRST occurrence is
      replaced and the replacement goes through GetSubstitution; without an occurrence s is
      returned unchanged. */
  function ReplaceFirst(s: string, pattern: string, replacement: string): (r: string)
    ensures !Includes(s, pattern) ==> r == s
  {
    match IndexOf(s, pattern)
    case None => s
    case Some(i) =>
      s[..i] + GetSubstitution(replacement, pattern, s[..i], s[i + |pattern|..]) + s[i + |pattern|..]
  }

  /** With a `$`-free replacement, replace keeps everything before the first occurrence, puts the
      replacement in its place and keeps everything after it verbatim, later occurrences included;
      the inserted text is never searched again. */
  lemma ReplaceFirstLiteral(s: string, pattern: string, replacement: string, i: nat)
    requires '$' !in replacement
    requires IndexOf(s, pattern) == Some(i)
    ensures ReplaceFirst(s, pattern, replacement) == s[..i] + replacement + s[i + |pattern|..]
    ensures |ReplaceFirst(s, pattern, replacement)| == |s| - |pattern| + |replacement|
  {
  }

  // ---------------------------------------------------------------------------------------------
  // parseInt (no radix argument) and the decimal form of an integer
  // ---------------------------------------------------------------------------------------------

  /** Value of c as a digit in bases up to 36; 36 for a character that is no digit. */
  function DigitValue(c: char): (d: nat)
    ensures d <= 36
  {
    if '0' <= c <= '9' then c as int - '0' as int
    else if 'a' <= c <= 'z' then c as int - 'a' as int + 10
    else if 'A' <= c <= 'Z' then c as int - 'A' as int + 10
    else 36
  }

  predicate IsDigit(c: char, radix: nat) {
    DigitValue(c) < radix
  }

  /** Length of the longest prefix of s made of digits of the radix. */
  function DigitRun(s: string, radix: nat): (n: nat)
    ensures n <= |s|
    ensures forall i :: 0 <= i < n ==> IsDigit(s[i], radix)
    ensures n < |s| ==> !IsDigit(s[n], radix)
  {
    if |s| > 0 && IsDigit(s[0], radix) then 1 + DigitRun(s[1..], radix) else 0
  }

  /** The number the digits denote, most significant first (applied to runs of digits of the radix only). */
  function DigitsValue(s: string, radix: nat): nat {
    if |s| == 0 then 0
    else DigitsValue(s[..|s| - 1], radix) * radix + DigitValue(s[|s| - 1])
  }

  /** The magnitude parseInt reads after the sign: base 16 after a `0x`/`0X` prefix, base 10
      otherwise, the longest run of digits of that base; None when that run is empty. */
  function ParseMagnitude(u: string): Option<nat> {
    var hex := |u| >= 2 && u[0] == '0' && (u[1] == 'x' || u[1] == 'X');
    var radix := if hex then 16 else 10;
    var digits := if hex then u[2..] else u;
    var n := DigitRun(digits, radix);
    if n == 0 then None else Some(DigitsValue(digits[..n], radix))
  }

  /** `parseInt(s)` (section 19.2.5 of ECMA-262): skip leading whitespace, read an optional sign,
      then the magnitude; no digit at all gives NaN, written None. The sign of zero is not kept. */
  function ParseInt(s: string): (r: Option<int>)
    ensures LeadingSpace(s) == |s| ==> r.None?
    ensures r.Some? && r.value < 0 ==> LeadingSpace(s) < |s| && s[LeadingSpace(s)] == '-'
  {
    var t := s[LeadingSpace(s)..];
    var negative := |t| > 0 && t[0] == '-';
    var u := if |t| > 0 && (t[0] == '-' || t[0] == '+') then t[1..] else t;
    match ParseMagnitude(u)
    case None => None
    case Some(m) =>
      var v: int := if negative then -(m as int) else m;
      Some(v)
  }

  /** parseInt gives NaN exactly when, after whitespace and an optional sign, no decimal digit
      follows, or a `0x` prefix is followed by no hexadecimal digit. */
  lemma ParseIntNaN(s: string)
    ensures var t := s[LeadingSpace(s)..];
            var u := if |t| > 0 && (t[0] == '-' || t[0] == '+') then t[1..] else t;
            ParseInt(s).None? <==>
              (|u| == 0 || !IsDigit(u[0], 10) ||
               (|u| >= 2 && u[0] == '0' && (u[1] == 'x' || u[1] == 'X') && (|u| == 2 || !IsDigit(u[2], 16))))
  {
    var t := s[LeadingSpace(s)..];
    var u := if |t| > 0 && (t[0] == '-' || t[0] == '+') then t[1..] else t;
    if |u| >= 2 && u[0] == '0' && (u[1] == 'x' || u[1] == 'X') {
      assert |u| > 2 ==> u[2..][0] == u[2];
    }
  }

  function DigitChar(d: nat): (c: char)
    requires d < 10
    ensures '0' <= c <= '9' && DigitValue(c) == d
  {
    ('0' as int + d) as char
  }

  /** Decimal digits of n, without leading zeros. */
  function NatToString(n: nat): (r: string)
    ensures |r| >= 1
    ensures forall i :: 0 <= i < |r| ==> '0' <= r[i] <= '9'
    decreases n
  {
    if n < 10 then [DigitChar(n)] else NatToString(n / 10) + [DigitChar(n % 10)]
  }

  /** `String(n)` for an integer n of safe magnitude. */
  function IntToString(n: int): (r: string)
    ensures |r| >= 1
    ensures r[0] == '-' <==> n < 0
    ensures forall i :: (if n < 0 then 1 else 0) <= i < |r| ==> '0' <= r[i] <= '9'
    ensures n >= 0 ==> r == NatToString(n)
  {
    if n < 0 then "-" + NatToString(-n) else NatToString(n)
  }

  lemma {:induction false} NatToStringValue(n: nat)
    ensures forall i :: 0 <= i < |NatToString(n)| ==> IsDigit(NatToString(n)[i], 10)
    ensures DigitsValue(NatToString(n), 10) == n
    decreases n
  {
    var r := NatToString(n);
    if n >= 10 {
      NatToStringValue(n / 10);
      assert r[..|r| - 1] == NatToString(n / 10);
    }
  }

  /** Decimal digits that do not start a `0x` prefix are read as they are. */
  lemma ParseMagnitudeOfDecimal(u: string)
    requires |u| >= 1 && forall i :: 0 <= i < |u| ==> '0' <= u[i] <= '9'
    ensures forall i :: 0 <= i < |u| ==> IsDigit(u[i], 10)
    ensures ParseMagnitude(u) == Some(DigitsValue(u, 10))
  {
    assert !(|u| >= 2 && u[0] == '0' && (u[1] == 'x' || u[1] == 'X'));
    assert DigitRun(u, 10) == |u|;
    assert u[..|u|] == u;
  }

  /** parseInt of a string with no leading whitespace and no sign reads its magnitude. */
  lemma ParseIntUnsigned(s: string)
    requires |s| >= 1 && '0' <= s[0] <= '9'
    ensures ParseInt(s) == match ParseMagnitude(s) case None => None case Some(m) => Some(m as int)
  {
    assert LeadingSpace(s) == 0;
    assert s[0..] == s;
  }

  /** parseInt of a minus sign followed by a string that starts with a digit negates its magnitude. */
  lemma ParseIntNegative(u: string)
    requires |u| >= 1 && '0' <= u[0] <= '9'
    ensures ParseInt("-" + u) == match ParseMagnitude(u) case None => None case Some(m) => Some(-(m as int))
  {
    var s := "-" + u;
    assert LeadingSpace(s) == 0;
    assert s[0..] == s;
    assert s[1..] == u;
  }

  /** Reading back the decimal form of an integer gives the integer: `parseInt(String(n)) === n`. */
  lemma ParseIntOfIntToString(n: int)
    ensures ParseInt(IntToString(n)) == Some(n)
  {
    var m: nat := if n < 0 then -n else n;
    var u := NatToString(m);
    NatToStringValue(m);
    ParseMagnitudeOfDecimal(u);
    if n < 0 {
      ParseIntNegative(u);
    } else {
      ParseIntUnsigned(u);
    }
  }

  /** Distinct integers have distinct decimal forms. */
  lemma IntToStringInjective(a: int, b: int)
    requires IntToString(a) == IntToString(b)
    ensures a == b
  {
    ParseIntOfIntToString(a);
    ParseIntOfIntToString(b);
  }
}
