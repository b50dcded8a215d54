/** The JavaScript string operations the app relies on: `includes`, ASCII case
    mapping, `split`/`join`, `trim`, hexadecimal and decimal conversion. */
module Text {
  import opened Js

  // ---------------------------------------------------------------------------
  // includes

  predicate OccursAt(s: string, t: string, i: int)
  {
    0 <= i && i + |t| <= |s| && s[i..i + |t|] == t
  }

  /** `s.includes(t)`. */
  predicate Contains(s: string, t: string)
  {
    exists i :: 0 <= i <= |s| - |t| && OccursAt(s, t, i)
  }

  /** A string containing `t` contains everything `t` contains. */
  lemma ContainsTransitive(s: string, t: string, u: string)
    requires Contains(s, t) && Contains(t, u)
    ensures Contains(s, u)
  {
    var i :| 0 <= i <= |s| - |t| && OccursAt(s, t, i);
    var j :| 0 <= j <= |t| - |u| && OccursAt(t, u, j);
    assert s[i..i + |t|] == t && t[j..j + |u|] == u;
    forall k | 0 <= k < |u|
      ensures s[i + j + k] == u[k]
    {
      assert s[i..i + |t|][j + k] == t[j + k];
      assert t[j..j + |u|][k] == t[j + k];
    }
    assert s[i + j..i + j + |u|] == u;
    assert OccursAt(s, u, i + j);
  }

  lemma ContainsSelf(s: string)
    ensures Contains(s, s)
  {
    assert OccursAt(s, s, 0);
  }

  /** A string none of whose characters is the first character of `t` does not include `t`. */
  lemma MissingFirstChar(s: string, t: string)
    requires |t| > 0 && t[0] !in s
    ensures !Contains(s, t)
  {
  }

  /** The first position at or after `from` where `t` occurs, if any (`indexOf`). */
  function FirstOccurrence(s: string, t: string, from: nat): (r: Option<nat>)
    ensures r.Some? ==> from <= r.value && OccursAt(s, t, r.value)
    ensures r.Some? ==> forall k :: from <= k < r.value ==> !OccursAt(s, t, k)
    ensures r.None? ==> forall k :: from <= k ==> !OccursAt(s, t, k)
    decreases |s| - from
  {
    if from + |t| > |s| then None
    else if OccursAt(s, t, from) then Some(from)
    else FirstOccurrence(s, t, from + 1)
  }

  lemma FirstOccurrenceIffContains(s: string, t: string)
    ensures FirstOccurrence(s, t, 0).Some? <==> Contains(s, t)
  {
    if Contains(s, t) {
      var i :| OccursAt(s, t, i);
    }
  }

  /** `s.replace(t, u)` with a string pattern: only the first occurrence of `t` is
      replaced; without one `s` comes back unchanged. */
  function ReplaceFirst(s: string, t: string, u: string): (r: string)
    ensures !Contains(s, t) ==> r == s
    ensures Contains(s, t) ==> exists i :: OccursAt(s, t, i) && r == s[..i] + u + s[i + |t|..]
  {
    FirstOccurrenceIffContains(s, t);
    match FirstOccurrence(s, t, 0)
    case None => s
    case Some(i) => s[..i] + u + s[i + |t|..]
  }

  /** Text before the first occurrence is kept: a string without `t` in it, followed by
      `t`, has exactly that occurrence replaced. */
  lemma ReplaceFirstAfterPrefix(p: string, t: string, q: string, u: string)
    requires |t| > 0 && !Contains(p + t[..|t| - 1], t)
    ensures ReplaceFirst(p + t + q, t, u) == p + u + q
  {
    var s := p + t + q;
    assert OccursAt(s, t, |p|) by { assert s[|p|..|p| + |t|] == t; }
    forall k | 0 <= k < |p|
      ensures !OccursAt(s, t, k)
    {
      if OccursAt(s, t, k) {
        assert (p + t[..|t| - 1])[k..k + |t|] == s[k..k + |t|];
        assert OccursAt(p + t[..|t| - 1], t, k);
      }
    }
    assert s[..|p|] == p;
    assert s[|p| + |t|..] == q;
  }

  // ---------------------------------------------------------------------------
  // toLowerCase / toUpperCase on ASCII letters

  function LowerChar(c: char): char
  {
    if 'A' <= c <= 'Z' then (c as int + 32) as char else c
  }

  function UpperChar(c: char): char
  {
    if 'a' <= c <= 'z' then (c as int - 32) as char else c
  }

  function ToLower(s: string): (r: string)
    ensures |r| == |s|
    ensures forall i :: 0 <= i < |s| ==> r[i] == LowerChar(s[i])
    ensures forall i :: 0 <= i < |r| ==> !('A' <= r[i] <= 'Z')
  {
    seq(|s|, i requires 0 <= i < |s| => LowerChar(s[i]))
  }

  function ToUpper(s: string): (r: string)
    ensures |r| == |s|
    ensures forall i :: 0 <= i < |s| ==> r[i] == UpperChar(s[i])
    ensures forall i :: 0 <= i < |r| ==> !('a' <= r[i] <= 'z')
  {
    seq(|s|, i requires 0 <= i < |s| => UpperChar(s[i]))
  }

  // ---------------------------------------------------------------------------
  // split / join with a non-empty separator string

  /** `s.split(sep)`: the pieces between non-overlapping occurrences, left to right. */
  function Split(s: string, sep: string): (parts: seq<string>)
    requires |sep| > 0
    ensures |parts| >= 1
    decreases |s|
  {
    match FirstOccurrence(s, sep, 0)
    case None => [s]
    case Some(k) => [s[..k]] + Split(s[k + |sep|..], sep)
  }

  /** `parts.join(sep)`. */
  function Join(parts: seq<string>, sep: string): string
  {
    if |parts| == 0 then ""
    else if |parts| == 1 then parts[0]
    else parts[0] + sep + Join(parts[1..], sep)
  }

  /** Joining the pieces of a split gives back the original string. */
  lemma {:induction false} JoinSplit(s: string, sep: string)
    requires |sep| > 0
    ensures Join(Split(s, sep), sep) == s
    decreases |s|
  {
    match FirstOccurrence(s, sep, 0)
    case None =>
    case Some(k) =>
      var rest := s[k + |sep|..];
      var parts := Split(s, sep);
      assert parts == [s[..k]] + Split(rest, sep);
      assert parts[1..] == Split(rest, sep);
      JoinSplit(rest, sep);
      assert Join(parts, sep) == s[..k] + sep + rest;
      assert s[k..k + |sep|] == sep;
      assert s == s[..k] + sep + rest;
  }

  /** A split has at least two pieces exactly when the separator occurs. */
  lemma SplitHasTwoPieces(s: string, sep: string)
    requires |sep| > 0
    ensures |Split(s, sep)| >= 2 <==> Contains(s, sep)
  {
    FirstOccurrenceIffContains(s, sep);
  }

  /** Re-joining every piece but the first gives the text after the first separator. */
  lemma JoinTail(s: string, sep: string, k: nat)
    requires |sep| > 0 && FirstOccurrence(s, sep, 0) == Some(k)
    ensures Split(s, sep)[0] == s[..k]
    ensures Join(Split(s, sep)[1..], sep) == s[k + |sep|..]
  {
    assert Split(s, sep)[1..] == Split(s[k + |sep|..], sep);
    JoinSplit(s[k + |sep|..], sep);
  }

  // ---------------------------------------------------------------------------
  // trim

  /** The characters `String.prototype.trim` removes: white space and line terminators. */
  predicate IsJsSpace(c: char)
  {
    c == ' ' || c == '\t' || c == '\n' || c == '\r' || c == '\U{0B}' || c == '\U{0C}'
    || c == '\U{A0}' || c == '\U{FEFF}' || c == '\U{1680}' || ('\U{2000}' <= c <= '\U{200A}')
    || c == '\U{2028}' || c == '\U{2029}' || c == '\U{202F}' || c == '\U{205F}' || c == '\U{3000}'
  }

  function TrimStart(s: string): (r: string)
    ensures |r| <= |s| && r == s[|s| - |r|..]
    ensures r != [] ==> !IsJsSpace(r[0])
    ensures forall i :: 0 <= i < |s| - |r| ==> IsJsSpace(s[i])
  {
    if s != [] && IsJsSpace(s[0]) then TrimStart(s[1..]) else s
  }

  function TrimEnd(s: string): (r: string)
    ensures |r| <= |s| && r == s[..|r|]
    ensures r != [] ==> !IsJsSpace(r[|r| - 1])
    ensures forall i :: |r| <= i < |s| ==> IsJsSpace(s[i])
  {
    if s != [] && IsJsSpace(s[|s| - 1]) then TrimEnd(s[..|s| - 1]) else s
  }

  /** `s.trim()`. */
  function Trim(s: string): (r: string)
  {
    TrimEnd(TrimStart(s))
  }

  // ---------------------------------------------------------------------------
  // hexadecimal bytes, as in `parseInt(h, 16)` and `n.toString(16).padStart(2, '0')`

  const LowerHexDigits: string := "0123456789abcdef"

  function HexDigitValue(c: char): (r: Option<nat>)
    ensures r.Some? ==> r.value < 16
  {
    if '0' <= c <= '9' then Some(c as int - '0' as int)
    else if 'a' <= c <= 'f' then Some(c as int - 'a' as int + 10)
    else if 'A' <= c <= 'F' then Some(c as int - 'A' as int + 10)
    else None
  }

  predicate IsHexDigit(c: char)
  {
    HexDigitValue(c).Some?
  }

  predicate IsLowerHexDigit(c: char)
  {
    '0' <= c <= '9' || 'a' <= c <= 'f'
  }

  /** Two hexadecimal digits read as one byte. */
  function ParseHexByte(h: string): (b: nat)
    requires |h| == 2 && IsHexDigit(h[0]) && IsHexDigit(h[1])
    ensures b < 256
  {
    HexDigitValue(h[0]).value * 16 + HexDigitValue(h[1]).value
  }

  /** A byte as two lowercase hexadecimal digits, zero-padded. */
  function FormatHexByte(b: nat): (h: string)
    requires b < 256
    ensures |h| == 2 && IsLowerHexDigit(h[0]) && IsLowerHexDigit(h[1])
  {
    [LowerHexDigits[b / 16], LowerHexDigits[b % 16]]
  }

  lemma LowerHexDigitRoundTrip(d: nat)
    requires d < 16
    ensures HexDigitValue(LowerHexDigits[d]) == Some(d)
  {
  }

  lemma ParseFormatHexByte(b: nat)
    requires b < 256
    ensures ParseHexByte(FormatHexByte(b)) == b
  {
    LowerHexDigitRoundTrip(b / 16);
    LowerHexDigitRoundTrip(b % 16);
  }

  lemma LowerHexDigitIndex(c: char)
    requires IsLowerHexDigit(c)
    ensures HexDigitValue(c).Some? && LowerHexDigits[HexDigitValue(c).value] == c
  {
  }

  lemma FormatParseHexByte(h: string)
    requires |h| == 2 && IsLowerHexDigit(h[0]) && IsLowerHexDigit(h[1])
    ensures IsHexDigit(h[0]) && IsHexDigit(h[1]) && FormatHexByte(ParseHexByte(h)) == h
  {
    LowerHexDigitIndex(h[0]);
    LowerHexDigitIndex(h[1]);
    var hi, lo := HexDigitValue(h[0]).value, HexDigitValue(h[1]).value;
    DivModSixteen(hi, lo);
    assert FormatHexByte(ParseHexByte(h)) == [LowerHexDigits[hi], LowerHexDigits[lo]];
  }

  /** `n.toString(16)` for a non-negative integer. */
  function NatToHex(n: nat): (s: string)
    ensures |s| >= 1 && forall i :: 0 <= i < |s| ==> IsLowerHexDigit(s[i])
  {
    if n < 16 then [LowerHexDigits[n]] else NatToHex(n / 16) + [LowerHexDigits[n % 16]]
  }

  /** `n.toString(16)` for any integer: a minus sign before the digits of the magnitude. */
  function IntToHex(n: int): string
  {
    if n < 0 then "-" + NatToHex(-n) else NatToHex(n)
  }

  /** `s.padStart(2, '0')`. */
  function PadStart2(s: string): (r: string)
    ensures |r| >= 2 && |r| >= |s|
  {
    if |s| == 0 then "00" else if |s| == 1 then "0" + s else s
  }

  /** Padding only adds zeros in front: the original string ends the result, and a string
      that is already two long is kept. */
  lemma PadStart2Suffix(s: string)
    ensures PadStart2(s)[|PadStart2(s)| - |s|..] == s
    ensures |s| >= 2 ==> PadStart2(s) == s
    ensures forall i :: 0 <= i < |PadStart2(s)| - |s| ==> PadStart2(s)[i] == '0'
  {
  }

  /** For a byte, the padded hexadecimal rendering is exactly the two-digit form. */
  lemma PaddedHexOfByte(b: nat)
    requires b < 256
    ensures PadStart2(IntToHex(b)) == FormatHexByte(b)
  {
    if b >= 16 {
      assert NatToHex(b / 16) == [LowerHexDigits[b / 16]];
    }
  }

  lemma DivModSixteen(hi: nat, lo: nat)
    requires hi < 16 && lo < 16
    ensures (hi * 16 + lo) / 16 == hi && (hi * 16 + lo) % 16 == lo
  {
  }

  // ---------------------------------------------------------------------------
  // decimal numerals, as in `n.toString()` and `parseInt(s)`

  predicate IsDigit(c: char)
  {
    '0' <= c <= '9'
  }

  function DigitChar(d: nat): (c: char)
    requires d < 10
    ensures IsDigit(c)
  {
    (d + '0' as int) as char
  }

  /** `n.toString()` for a non-negative integer. */
  function NatToString(n: nat): (s: string)
    ensures |s| >= 1 && forall i :: 0 <= i < |s| ==> IsDigit(s[i])
  {
    if n < 10 then [DigitChar(n)] else NatToString(n / 10) + [DigitChar(n % 10)]
  }

  /** Template-literal rendering of an integer. */
  function IntToString(n: int): string
  {
    if n < 0 then "-" + NatToString(-n) else NatToString(n)
  }

  /** The value of a string of decimal digits. */
  function DigitsValue(s: string): nat
    requires forall i :: 0 <= i < |s| ==> IsDigit(s[i])
  {
    if s == [] then 0
    else
      assert IsDigit(s[|s| - 1]);
      10 * DigitsValue(s[..|s| - 1]) + (s[|s| - 1] as int - '0' as int)
  }

  /** The longest prefix of `s` made of decimal digits. */
  function DigitPrefix(s: string): (p: string)
    ensures |p| <= |s| && p == s[..|p|]
    ensures forall i :: 0 <= i < |p| ==> IsDigit(p[i])
    ensures |p| < |s| ==> !IsDigit(s[|p|])
  {
    if s != [] && IsDigit(s[0]) then [s[0]] + DigitPrefix(s[1..]) else []
  }

  /** The longest prefix of `s` made of hexadecimal digits, either case. */
  function HexPrefix(s: string): (p: string)
    ensures |p| <= |s| && p == s[..|p|]
    ensures forall i :: 0 <= i < |p| ==> IsHexDigit(p[i])
    ensures |p| < |s| ==> !IsHexDigit(s[|p|])
  {
    if s != [] && IsHexDigit(s[0]) then [s[0]] + HexPrefix(s[1..]) else []
  }

  /** The value of a string of hexadecimal digits. */
  function HexDigitsValue(s: string): nat
    requires forall i :: 0 <= i < |s| ==> IsHexDigit(s[i])
  {
    if s == [] then 0
    else
      assert IsHexDigit(s[|s| - 1]);
      16 * HexDigitsValue(s[..|s| - 1]) + HexDigitValue(s[|s| - 1]).value
  }

  /** The `0x` or `0X` prefix that makes `parseInt` without a radix read base 16. */
  predicate HasHexPrefix(s: string)
  {
    |s| >= 2 && s[0] == '0' && (s[1] == 'x' || s[1] == 'X')
  }

  /** `parseInt(s)` with no radix: leading white space, an optional sign, then either
      `0x`/`0X` and the longest run of hexadecimal digits, or the longest run of decimal
      digits; `None` stands for NaN. */
  function ParseInt(s: string): (r: Option<int>)
  {
    var t := TrimStart(s);
    var negative := t != [] && t[0] == '-';
    var body := if t != [] && (t[0] == '-' || t[0] == '+') then t[1..] else t;
    match ParseMagnitude(body)
    case None => None
    case Some(m) =>
      var value: int := if negative then -(m as int) else m;
      Some(value)
  }

  /** The unsigned part of `parseInt`: a `0x`/`0X` prefix and hexadecimal digits, or
      decimal digits; `None` when no digit follows. */
  function ParseMagnitude(body: string): Option<nat>
  {
    if HasHexPrefix(body) then
      var digits := HexPrefix(body[2..]);
      if digits == [] then None else Some(HexDigitsValue(digits))
    else
      var digits := DigitPrefix(body);
      if digits == [] then None else Some(DigitsValue(digits))
  }

  /** A string that starts with `0x` or `0X` is read in base 16; NaN when no
      hexadecimal digit follows the prefix. */
  lemma ParseIntOfHexLiteral(s: string)
    requires HasHexPrefix(s)
    ensures var d := HexPrefix(s[2..]);
      ParseInt(s) == if d == [] then None else Some(HexDigitsValue(d))
  {
    assert !IsJsSpace(s[0]);
    assert TrimStart(s) == s;
  }

  /** `parseInt("0x1A")` is 26. */
  lemma ParseIntHex()
    ensures ParseInt("0x1A") == Some(26)
  {
    var s := "0x1A";
    ParseIntOfHexLiteral(s);
    assert s[2..] == "1A";
    assert HexPrefix("1A") == "1A" by {
      assert "1A"[1..] == "A" && "A"[1..] == "";
    }
    assert HexDigitsValue("1A") == 26 by {
      assert "1A"[..1] == "1" && "1"[..0] == "";
    }
  }

  /** `parseInt("0x")` and `parseInt("0xg")` are NaN. */
  lemma ParseIntBareHexPrefix()
    ensures ParseInt("0x") == None
    ensures ParseInt("0xg") == None
  {
    ParseIntOfHexLiteral("0x");
    ParseIntOfHexLiteral("0xg");
    assert "0x"[2..] == "" && "0xg"[2..] == "g";
  }

  /** `parseInt("NaN")` is NaN. */
  lemma ParseIntOfNaN()
    ensures ParseInt("NaN") == None
  {
    var s := "NaN";
    assert s[0] == 'N' && !IsJsSpace(s[0]) && !IsDigit(s[0]);
    assert TrimStart(s) == s;
    assert DigitPrefix(s) == [];
    assert ParseMagnitude(s) == None;
  }

  lemma {:induction false} DigitsValueOfNatToString(n: nat)
    ensures DigitsValue(NatToString(n)) == n
  {
    if n >= 10 {
      var s := NatToString(n);
      DigitsValueOfNatToString(n / 10);
      assert s[..|s| - 1] == NatToString(n / 10);
    }
  }

  lemma DigitPrefixOfDigits(s: string)
    requires forall i :: 0 <= i < |s| ==> IsDigit(s[i])
    ensures DigitPrefix(s) == s
  {
  }

  /** Reading back a rendered count gives the count. */
  lemma ParseIntOfNatToString(n: nat)
    ensures ParseInt(NatToString(n)) == Some(n)
  {
    var s := NatToString(n);
    assert !IsJsSpace(s[0]);
    assert TrimStart(s) == s;
    assert !HasHexPrefix(s) by {
      if |s| >= 2 { assert IsDigit(s[1]); }
    }
    DigitPrefixOfDigits(s);
    DigitsValueOfNatToString(n);
  }

  lemma NatToStringInjective(m: nat, n: nat)
    requires NatToString(m) == NatToString(n)
    ensures m == n
  {
    ParseIntOfNatToString(m);
    ParseIntOfNatToString(n);
  }
}
