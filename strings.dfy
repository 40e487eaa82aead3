/**
 * The JavaScript string operations the source relies on, over `string`
 * (`seq<char>`): `trim`, `toLowerCase` (ASCII letters only), `includes`,
 * `startsWith`, `replace` of the first occurrence, `join`, `split` on one
 * character, number-to-string and `parseInt`.
 */
module Strings {
  import opened Common

  /** A character JavaScript treats as white space (`\s` in a regular expression, and `trim`). */
  predicate IsSpace(c: char)
  {
    var n := c as int;
    n == 0x09 || n == 0x0A || n == 0x0B || n == 0x0C || n == 0x0D || n == 0x20 ||
    n == 0xA0 || n == 0x1680 || (0x2000 <= n <= 0x200A) || n == 0x2028 || n == 0x2029 ||
    n == 0x202F || n == 0x205F || n == 0x3000 || n == 0xFEFF
  }

  /** `\d` in a JavaScript regular expression: an ASCII digit. */
  predicate IsDigit(c: char)
  {
    '0' <= c <= '9'
  }

  function TrimStart(s: string): (r: string)
    ensures |r| <= |s| && r == s[|s| - |r|..]
    ensures forall k :: 0 <= k < |s| - |r| ==> IsSpace(s[k])
    ensures r != [] ==> !IsSpace(r[0])
    ensures r == [] <==> forall k :: 0 <= k < |s| ==> IsSpace(s[k])
  {
    if s == [] || !IsSpace(s[0]) then s
    else
      var t := s[1..];
      var r := TrimStart(t);
      assert forall k :: 1 <= k < |s| ==> s[k] == t[k - 1];
      assert s[|s| - |r|..] == t[|t| - |r|..];
      r
  }

  function TrimEnd(s: string): (r: string)
    ensures |r| <= |s| && r == s[..|r|]
    ensures forall k :: |r| <= k < |s| ==> IsSpace(s[k])
    ensures r != [] ==> !IsSpace(r[|r| - 1])
    ensures r == [] <==> forall k :: 0 <= k < |s| ==> IsSpace(s[k])
  {
    if s == [] || !IsSpace(s[|s| - 1]) then s
    else
      var r := TrimEnd(s[..|s| - 1]);
      assert forall k :: 0 <= k < |s| - 1 ==> s[k] == s[..|s| - 1][k];
      r
  }

  /** `String.prototype.trim`. */
  function Trim(s: string): (r: string)
    ensures |r| <= |s|
    ensures r != [] ==> !IsSpace(r[0]) && !IsSpace(r[|r| - 1])
  {
    TrimEnd(TrimStart(s))
  }

  /** A string trims to the empty string exactly when it consists of white space only. */
  lemma TrimEmptyIff(s: string)
    ensures Trim(s) == [] <==> forall i :: 0 <= i < |s| ==> IsSpace(s[i])
  {
    var t := TrimStart(s);
    assert t != [] ==> !IsSpace(t[0]);
  }

  /** Trimming removes white space only: a string with a non-space character does not trim to empty. */
  lemma TrimKeeps(s: string, i: nat)
    requires i < |s| && !IsSpace(s[i])
    ensures Trim(s) != []
  {
    TrimEmptyIff(s);
  }

  function LowerChar(c: char): (r: char)
    ensures 'A' <= c <= 'Z' ==> 'a' <= r <= 'z'
    ensures !('A' <= c <= 'Z') ==> r == c
  {
    if 'A' <= c <= 'Z' then (c as int + 32) as char else c
  }

  /** `String.prototype.toLowerCase`, for ASCII letters. */
  function ToLower(s: string): (r: string)
    ensures |r| == |s|
    ensures forall i :: 0 <= i < |s| ==> r[i] == LowerChar(s[i])
  {
    seq(|s|, i requires 0 <= i < |s| => LowerChar(s[i]))
  }

  predicate StartsWith(s: string, p: string)
  {
    |p| <= |s| && s[..|p|] == p
  }

  lemma StartsWithAppend(s: string, t: string, p: string)
    requires StartsWith(s, p)
    ensures StartsWith(s + t, p)
  {
    assert (s + t)[..|p|] == s[..|p|];
  }

  /** `p` occurs in `s` starting at position `i`. */
  predicate OccursAt(s: string, p: string, i: int)
  {
    0 <= i <= |s| - |p| && s[i..i + |p|] == p
  }

  /** `String.prototype.includes`: `p` occurs in `s` as a contiguous substring. */
  function Includes(s: string, p: string): (r: bool)
    ensures r <==> exists i :: OccursAt(s, p, i)
    decreases |s|
  {
    if |p| > |s| then false
    else if s[..|p|] == p then
      assert OccursAt(s, p, 0);
      true
    else
      IncludesStep(s, p);
      Includes(s[1..], p)
  }

  /** Where `p` does not start at the front, it occurs in `s` exactly when it occurs in `s` without its first character. */
  lemma IncludesStep(s: string, p: string)
    requires |p| <= |s| && s[..|p|] != p
    ensures (exists i :: OccursAt(s, p, i)) <==> (exists j :: OccursAt(s[1..], p, j))
  {
    assert !OccursAt(s, p, 0);
    forall i | OccursAt(s, p, i) ensures OccursAt(s[1..], p, i - 1) {
      assert s[1..][i - 1..i - 1 + |p|] == s[i..i + |p|];
    }
    forall j | OccursAt(s[1..], p, j) ensures OccursAt(s, p, j + 1) {
      assert s[1..][j..j + |p|] == s[j + 1..j + 1 + |p|];
    }
  }

  /** The empty string occurs in every string: `s.includes('')` is always true. */
  lemma IncludesEmpty(s: string)
    ensures Includes(s, "")
  {
    assert OccursAt(s, "", 0);
  }

  /** A string that contains `p` verbatim includes `p`. */
  lemma IncludesInfix(a: string, p: string, b: string)
    ensures Includes(a + p + b, p)
  {
    assert (a + p + b)[|a|..|a| + |p|] == p;
    assert OccursAt(a + p + b, p, |a|);
  }

  /** Every slice of `s` is found by a substring search in `s`. */
  lemma {:induction false} IncludesSlice(s: string, i: nat, j: nat)
    requires i <= j <= |s|
    ensures Includes(s, s[i..j])
  {
    assert OccursAt(s, s[i..j], i);
  }

  /** `String.prototype.replace(pat, rep)` with a string pattern: only the first occurrence is replaced. */
  function ReplaceFirst(s: string, pat: string, rep: string): (r: string)
    ensures !Includes(s, pat) ==> r == s
    decreases |s|
  {
    if |pat| > |s| then s
    else if s[..|pat|] == pat then rep + s[|pat|..]
    else [s[0]] + ReplaceFirst(s[1..], pat, rep)
  }

  /** `replace` skips a prefix in which the pattern does not start and replaces the occurrence after it. */
  lemma {:induction false} ReplaceFirstAt(a: string, pat: string, rep: string, b: string)
    requires pat != []
    requires forall i :: 0 <= i < |a| ==> !OccursAt(a + pat + b, pat, i)
    ensures ReplaceFirst(a + pat + b, pat, rep) == a + rep + b
    decreases |a|
  {
    var s := a + pat + b;
    if a == [] {
      assert s == pat + b;
      assert s[..|pat|] == pat;
    } else {
      assert !OccursAt(s, pat, 0);
      assert s[1..] == a[1..] + pat + b;
      NoEarlierOccurrence(a, pat, b);
      ReplaceFirstAt(a[1..], pat, rep, b);
      assert [s[0]] + (a[1..] + rep + b) == a + rep + b;
    }
  }

  /** Dropping the first character of a prefix without the pattern leaves a prefix without it. */
  lemma NoEarlierOccurrence(a: string, pat: string, b: string)
    requires a != []
    requires forall i :: 0 <= i < |a| ==> !OccursAt(a + pat + b, pat, i)
    ensures forall i :: 0 <= i < |a[1..]| ==> !OccursAt(a[1..] + pat + b, pat, i)
  {
    var s := a + pat + b;
    var t := a[1..] + pat + b;
    assert t == s[1..];
    forall i | 0 <= i < |a[1..]| ensures !OccursAt(t, pat, i) {
      assert !OccursAt(s, pat, i + 1);
      assert s[i + 1..i + 1 + |pat|] == s[1..][i..i + |pat|];
    }
  }

  /** `Array.prototype.join(sep)`. */
  function Join(parts: seq<string>, sep: string): (r: string)
    ensures parts != [] ==> |r| >= |parts[0]|
  {
    if parts == [] then ""
    else if |parts| == 1 then parts[0]
    else parts[0] + sep + Join(parts[1..], sep)
  }

  /** `String.prototype.split(c)` for a one-character separator. */
  function SplitOn(s: string, c: char): (r: seq<string>)
    ensures |r| >= 1
    decreases |s|
  {
    match FindIndex(s, (x: char) => x == c)
    case None => [s]
    case Some(i) => [s[..i]] + SplitOn(s[i + 1..], c)
  }

  /** Splitting a joined list on a separator that no part contains gives back the parts. */
  lemma {:induction false} SplitJoin(parts: seq<string>, c: char)
    requires |parts| >= 1
    requires forall k :: 0 <= k < |parts| ==> c !in parts[k]
    ensures SplitOn(Join(parts, [c]), c) == parts
  {
    var s := Join(parts, [c]);
    if |parts| == 1 {
      assert s == parts[0];
    } else {
      var x := parts[0];
      assert s == x + [c] + Join(parts[1..], [c]);
      assert s[|x|] == c;
      assert forall j :: 0 <= j < |x| ==> s[j] == x[j];
      var idx := FindIndex(s, (y: char) => y == c);
      assert idx == Some(|x|);
      assert s[..|x|] == x;
      assert s[|x| + 1..] == Join(parts[1..], [c]);
      SplitJoin(parts[1..], c);
    }
  }

  function DigitChar(d: nat): (c: char)
    requires d < 10
    ensures IsDigit(c)
  {
    ('0' as int + d) as char
  }

  /** Decimal text of a natural number, as JavaScript's template literals print it. */
  function NatToString(n: nat): (r: string)
    ensures |r| >= 1
    ensures forall i :: 0 <= i < |r| ==> IsDigit(r[i])
  {
    if n < 10 then [DigitChar(n)] else NatToString(n / 10) + [DigitChar(n % 10)]
  }

  function IntToString(n: int): (r: string)
    ensures |r| >= 1
  {
    if n < 0 then "-" + NatToString(-n) else NatToString(n)
  }

  /** A character outside the Basic Multilingual Plane, which UTF-16 stores as a surrogate pair. */
  predicate IsAstral(c: char)
  {
    c as int >= 0x1_0000
  }

  /** `String.prototype.length`: the number of UTF-16 code units, two for each astral character. */
  function Utf16Length(s: string): (n: nat)
    ensures |s| <= n <= 2 * |s|
  {
    if s == [] then 0 else (if IsAstral(s[0]) then 2 else 1) + Utf16Length(s[1..])
  }

  /** The length in code units is the number of characters exactly when no character is astral. */
  lemma {:induction false} Utf16LengthIsSize(s: string)
    ensures Utf16Length(s) == |s| <==> forall i :: 0 <= i < |s| ==> !IsAstral(s[i])
  {
    if s != [] {
      Utf16LengthIsSize(s[1..]);
      assert forall i :: 1 <= i < |s| ==> s[i] == s[1..][i - 1];
      if !IsAstral(s[0]) && Utf16Length(s[1..]) == |s| - 1 {
        assert forall i :: 0 <= i < |s| ==> !IsAstral(s[i]) by {
          forall i | 0 <= i < |s|
            ensures !IsAstral(s[i])
          {
            if i > 0 {
              assert s[i] == s[1..][i - 1];
            }
          }
        }
      }
    }
  }

  lemma {:induction false} Utf16LengthAppend(s: string, t: string)
    ensures Utf16Length(s + t) == Utf16Length(s) + Utf16Length(t)
  {
    if s == [] {
      assert s + t == t;
    } else {
      assert (s + t)[0] == s[0] && (s + t)[1..] == s[1..] + t;
      Utf16LengthAppend(s[1..], t);
    }
  }

  /** Three astral characters (three emoji, say) are six code units long. */
  lemma Utf16LengthThreeAstral(a: char, b: char, c: char)
    requires IsAstral(a) && IsAstral(b) && IsAstral(c)
    ensures Utf16Length([a, b, c]) == 6
  {
    assert Utf16Length([c]) == 2 by {
      assert [c][1..] == [];
    }
    assert Utf16Length([b, c]) == 4 by {
      assert [b, c][1..] == [c];
    }
    assert [a, b, c][1..] == [b, c];
  }

  /** A digit `parseInt` reads in base `radix` (10 or 16): `0`-`9`, and in base 16 also `a`-`f` and `A`-`F`. */
  predicate IsRadixDigit(c: char, radix: nat)
  {
    IsDigit(c) || (radix == 16 && ('a' <= c <= 'f' || 'A' <= c <= 'F'))
  }

  /** The value of one digit; letters count from 10. */
  function DigitValue(c: char): (v: nat)
    ensures IsDigit(c) ==> v == c as int - '0' as int
    ensures IsRadixDigit(c, 16) ==> v < 16
  {
    if IsDigit(c) then c as int - '0' as int
    else if 'a' <= c <= 'f' then c as int - 'a' as int + 10
    else if 'A' <= c <= 'F' then c as int - 'A' as int + 10
    else 0
  }

  /** The longest prefix of `s` made of digits of base `radix`. */
  function DigitPrefix(s: string, radix: nat): (r: string)
    ensures |r| <= |s| && r == s[..|r|]
    ensures forall i :: 0 <= i < |r| ==> IsRadixDigit(r[i], radix)
    ensures |r| < |s| ==> !IsRadixDigit(s[|r|], radix)
  {
    if s == [] || !IsRadixDigit(s[0], radix) then [] else [s[0]] + DigitPrefix(s[1..], radix)
  }

  /** The value of a string of digits in base `radix`, most significant first. */
  function DigitsValue(d: string, radix: nat): (v: nat)
  {
    if d == [] then 0
    else DigitsValue(d[..|d| - 1], radix) * radix + DigitValue(d[|d| - 1])
  }

  /** `0x` or `0X` at the front: without a radix argument, `parseInt` then reads base 16. */
  predicate HexPrefixed(body: string)
  {
    |body| >= 2 && body[0] == '0' && (body[1] == 'x' || body[1] == 'X')
  }

  /** What `parseInt` reads after the sign: base 16 behind `0x` or `0X`, otherwise base 10; `None` when no digit follows. */
  function ParseMagnitude(body: string): (r: Option<nat>)
  {
    var radix := if HexPrefixed(body) then 16 else 10;
    var d := DigitPrefix(if HexPrefixed(body) then body[2..] else body, radix);
    if d == [] then None else Some(DigitsValue(d, radix))
  }

  /** What `parseInt` reads once white space is skipped: an optional sign, then `ParseMagnitude`. */
  function ParseSigned(t: string): (r: Option<int>)
  {
    var neg := |t| > 0 && t[0] == '-';
    var body := if |t| > 0 && (t[0] == '-' || t[0] == '+') then t[1..] else t;
    match ParseMagnitude(body)
    case None => None
    case Some(m) => Some(if neg then -(m as int) else m)
  }

  /** `parseInt(s)` without a radix: leading white space is skipped, then `ParseSigned`. `None` stands for `NaN`. */
  function ParseInt(s: string): (r: Option<int>)
  {
    ParseSigned(TrimStart(s))
  }

  lemma {:induction false} DigitsValueOfNat(n: nat)
    ensures DigitsValue(NatToString(n), 10) == n
  {
    if n >= 10 {
      var s := NatToString(n);
      assert s[..|s| - 1] == NatToString(n / 10);
      DigitsValueOfNat(n / 10);
    }
  }

  /** A run of digits followed by a non-digit (or nothing) is exactly the longest digit prefix. */
  lemma {:induction false} DigitPrefixOf(d: string, rest: string, radix: nat)
    requires forall i :: 0 <= i < |d| ==> IsRadixDigit(d[i], radix)
    requires rest != [] ==> !IsRadixDigit(rest[0], radix)
    ensures DigitPrefix(d + rest, radix) == d
  {
    if d == [] {
      assert d + rest == rest;
    } else {
      assert (d + rest)[0] == d[0];
      assert (d + rest)[1..] == d[1..] + rest;
      DigitPrefixOf(d[1..], rest, radix);
    }
  }

  /** Text that does not start with white space is read by `ParseSigned` as it stands. */
  lemma ParseIntNoSpace(t: string)
    requires t != [] && !IsSpace(t[0])
    ensures ParseInt(t) == ParseSigned(t)
  {
    assert TrimStart(t) == t;
  }

  /** `parseInt` reads back the decimal text of every natural number, and stops at the first non-digit after it. */
  lemma {:induction false} ParseIntNatToString(n: nat, rest: string)
    requires rest != [] ==> !IsDigit(rest[0]) && (n == 0 ==> rest[0] != 'x' && rest[0] != 'X')
    ensures ParseInt(NatToString(n) + rest) == Some(n)
  {
    var s := NatToString(n);
    var t := s + rest;
    assert t[0] == s[0] && IsDigit(s[0]);
    if |s| >= 2 {
      assert t[1] == s[1] && IsDigit(s[1]);
    } else if rest != [] {
      assert t[1] == rest[0];
      if n != 0 {
        assert s == [DigitChar(n)] && s[0] != '0';
      }
    }
    assert !HexPrefixed(t);
    DigitPrefixOf(s, rest, 10);
    DigitsValueOfNat(n);
    assert ParseMagnitude(t) == Some(n);
    ParseIntNoSpace(t);
  }

  /** Behind `0x` or `0X`, the digits are read in base 16; the prefix alone is `NaN`. */
  lemma {:induction false} ParseMagnitudeHex(x: char, d: string)
    requires x == 'x' || x == 'X'
    requires forall i :: 0 <= i < |d| ==> IsRadixDigit(d[i], 16)
    ensures ParseMagnitude(['0', x] + d) == if d == [] then None else Some(DigitsValue(d, 16))
  {
    var body := ['0', x] + d;
    assert HexPrefixed(body) && body[2..] == d;
    DigitPrefixOf(d, [], 16);
    assert d + [] == d;
  }

  /** After the white space: the digits behind `0x` or `0X` are read in base 16, behind an optional sign. */
  lemma {:induction false} ParseSignedHex(sign: string, x: char, d: string)
    requires sign == "" || sign == "+" || sign == "-"
    requires x == 'x' || x == 'X'
    requires forall i :: 0 <= i < |d| ==> IsRadixDigit(d[i], 16)
    ensures ParseSigned(sign + ['0', x] + d) ==
              if d == [] then None
              else if sign == "-" then Some(-(DigitsValue(d, 16) as int))
              else Some(DigitsValue(d, 16))
  {
    var body := ['0', x] + d;
    var t := sign + ['0', x] + d;
    ParseMagnitudeHex(x, d);
    if sign == "" {
      assert t == body;
    } else {
      assert t[0] == sign[0] && t[1..] == body;
    }
  }

  /**
   * Without a radix, `parseInt` reads the digits after `0x` or `0X` in base
   * 16, behind an optional sign, and the prefix alone is `NaN`.
   */
  lemma {:induction false} ParseIntHex(sign: string, x: char, d: string)
    requires sign == "" || sign == "+" || sign == "-"
    requires x == 'x' || x == 'X'
    requires forall i :: 0 <= i < |d| ==> IsRadixDigit(d[i], 16)
    ensures d == [] ==> ParseInt(sign + ['0', x] + d).None?
    ensures d != [] && sign != "-" ==> ParseInt(sign + ['0', x] + d) == Some(DigitsValue(d, 16))
    ensures d != [] && sign == "-" ==> ParseInt(sign + ['0', x] + d) == Some(-(DigitsValue(d, 16) as int))
  {
    var t := sign + ['0', x] + d;
    assert t[0] == '0' || t[0] == '+' || t[0] == '-';
    ParseSignedHex(sign, x, d);
    ParseIntNoSpace(t);
  }

  /** Two hex digits behind `0x`: `parseInt("0x10")` is 16, where base 10 would stop at the `x` and give 0. */
  lemma ParseIntHexTwoDigits(x: char, hi: char, lo: char)
    requires x == 'x' || x == 'X'
    requires IsRadixDigit(hi, 16) && IsRadixDigit(lo, 16)
    ensures ParseInt(['0', x, hi, lo]) == Some(DigitValue(hi) * 16 + DigitValue(lo))
  {
    var d := [hi, lo];
    var t := ['0', x, hi, lo];
    assert [] + ['0', x] + d == t;
    ParseSignedHex("", x, d);
    assert d[..|d| - 1] == [hi];
    assert DigitsValue([hi], 16) == DigitValue(hi) by {
      assert [hi][..0] == [];
    }
    ParseIntNoSpace(t);
  }

  /** `parseInt` of a string with no digit at all is `NaN`; in particular of the empty string. */
  lemma ParseIntEmpty()
    ensures ParseInt("") == None
  {
  }
}
