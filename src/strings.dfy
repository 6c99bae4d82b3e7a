/**
 * The JavaScript string built-ins the application relies on, stated over
 * Dafny strings (sequences of Unicode scalar values). Where JavaScript works
 * on UTF-16 code units, `Utf16` gives those units explicitly.
 */
module Strings {
  import opened Common

  // ---------------------------------------------------------------------
  // Searching: startsWith, includes, indexOf, replace(string, string)
  // ---------------------------------------------------------------------

  predicate StartsWith(s: string, p: string) { |p| <= |s| && s[..|p|] == p }

  /** `s.includes(p)`, read as a scan from the front. */
  predicate Contains(s: string, p: string)
    decreases |s|
  {
    StartsWith(s, p) || (|s| > 0 && Contains(s[1..], p))
  }

  /** `p` occurs in `s` at offset `i`. */
  predicate OccursAt(s: string, p: string, i: int)
  {
    0 <= i <= |s| - |p| && s[i..i + |p|] == p
  }

  /** The scan agrees with the reference reading: `p` occurs at some offset of `s`. */
  lemma {:induction false} ContainsIffOccurs(s: string, p: string)
    ensures Contains(s, p) <==> exists i :: OccursAt(s, p, i)
    decreases |s|
  {
    if StartsWith(s, p) {
      assert OccursAt(s, p, 0);
    } else if |s| > 0 {
      ContainsIffOccurs(s[1..], p);
      if Contains(s[1..], p) {
        var i :| OccursAt(s[1..], p, i);
        assert s[i + 1..i + 1 + |p|] == s[1..][i..i + |p|];
        assert OccursAt(s, p, i + 1);
      }
      if exists i :: OccursAt(s, p, i) {
        var i :| OccursAt(s, p, i);
        assert i != 0;
        assert s[1..][i - 1..i - 1 + |p|] == s[i..i + |p|];
        assert OccursAt(s[1..], p, i - 1);
      }
    } else {
      assert forall i :: !OccursAt(s, p, i);
    }
  }

  /** A string holds whatever was placed inside it. */
  lemma ContainsInfix(a: string, p: string, b: string)
    ensures Contains(a + p + b, p)
  {
    var s := a + p + b;
    assert s[|a|..|a| + |p|] == p;
    assert OccursAt(s, p, |a|);
    ContainsIffOccurs(s, p);
  }

  /** `s.indexOf(p)`: the first offset at which `p` occurs, if any. */
  function IndexOf(s: string, p: string): (r: Option<nat>)
    ensures r.Some? ==> r.value + |p| <= |s| && s[r.value..r.value + |p|] == p
    ensures r.Some? <==> Contains(s, p)
    ensures r.Some? ==> forall j :: 0 <= j < r.value ==> !StartsWith(s[j..], p)
    decreases |s|
  {
    if StartsWith(s, p) then Some(0)
    else if |s| == 0 then None
    else
      match IndexOf(s[1..], p)
      case None => None
      case Some(i) =>
        assert forall j :: 1 <= j < i + 1 ==> s[j..] == s[1..][j - 1..];
        Some(i + 1)
  }

  /** `s.replace(p, r)` with a string pattern: only the first occurrence is replaced. */
  function ReplaceFirst(s: string, p: string, r: string): string
  {
    match IndexOf(s, p)
    case None => s
    case Some(i) => s[..i] + r + s[i + |p|..]
  }

  /** A pattern whose first character does not occur before it is found right there. */
  lemma {:induction false} ReplaceFirstAt(a: string, p: string, b: string, r: string)
    requires |p| > 0 && p[0] !in a
    ensures IndexOf(a + p + b, p) == Some(|a|)
    ensures ReplaceFirst(a + p + b, p, r) == a + r + b
    decreases |a|
  {
    var s := a + p + b;
    if a == [] {
      assert s[..|p|] == p;
    } else {
      assert s[0] == a[0] != p[0];
      assert !StartsWith(s, p);
      assert s[1..] == a[1..] + p + b;
      ReplaceFirstAt(a[1..], p, b, r);
    }
    assert s[..|a|] == a && s[|a| + |p|..] == b;
  }

  /** Without an occurrence the string is left as it is. */
  lemma ReplaceFirstAbsent(s: string, p: string, r: string)
    requires !Contains(s, p)
    ensures ReplaceFirst(s, p, r) == s
  {
  }

  /** `s.substring(0, n)` for a non-negative `n`. */
  function Take(s: string, n: nat): (r: string)
    ensures |r| == Min(n, |s|) && r == s[..|r|]
  {
    s[..Min(n, |s|)]
  }

  // ---------------------------------------------------------------------
  // split(char) and join(string)
  // ---------------------------------------------------------------------

  /** `s.split(sep)` for a one-character separator; `"".split(sep)` is `[""]`. */
  function Split(s: string, sep: char): (parts: seq<string>)
    ensures |parts| >= 1
    ensures forall i :: 0 <= i < |parts| ==> sep !in parts[i]
    decreases |s|
  {
    if |s| == 0 then [""]
    else if s[0] == sep then [""] + Split(s[1..], sep)
    else
      var rest := Split(s[1..], sep);
      [[s[0]] + rest[0]] + rest[1..]
  }

  /** `parts.join(sep)`. */
  function Join(parts: seq<string>, sep: string): string
  {
    if |parts| == 0 then ""
    else if |parts| == 1 then parts[0]
    else parts[0] + sep + Join(parts[1..], sep)
  }

  /** Splitting and joining back with the same separator gives the string again. */
  lemma {:induction false} JoinSplit(s: string, sep: char)
    ensures Join(Split(s, sep), [sep]) == s
    decreases |s|
  {
    if |s| == 0 {
    } else if s[0] == sep {
      var rest := Split(s[1..], sep);
      JoinSplit(s[1..], sep);
      assert ([""] + rest)[1..] == rest;
    } else {
      var rest := Split(s[1..], sep);
      JoinSplit(s[1..], sep);
      var parts := [[s[0]] + rest[0]] + rest[1..];
      assert parts[1..] == rest[1..];
      if |rest| > 1 {
        assert Join(rest, [sep]) == rest[0] + [sep] + Join(rest[1..], [sep]);
      }
      assert s == [s[0]] + s[1..];
    }
  }

  /** A separator splits the string into the parts before it and the parts after it. */
  lemma {:induction false} SplitConcat(a: string, b: string, sep: char)
    ensures Split(a + [sep] + b, sep) == Split(a, sep) + Split(b, sep)
    decreases |a|
  {
    var s := a + [sep] + b;
    if |a| == 0 {
      assert s[1..] == b;
    } else if a[0] == sep {
      assert s[1..] == a[1..] + [sep] + b;
      SplitConcat(a[1..], b, sep);
    } else {
      assert s[1..] == a[1..] + [sep] + b;
      SplitConcat(a[1..], b, sep);
      var r := Split(a[1..], sep);
      assert (r + Split(b, sep))[1..] == r[1..] + Split(b, sep);
    }
  }

  lemma {:induction false} SplitWithoutSeparator(a: string, sep: char)
    requires sep !in a
    ensures Split(a, sep) == [a]
    decreases |a|
  {
    if |a| > 0 {
      SplitWithoutSeparator(a[1..], sep);
      assert a == [a[0]] + a[1..];
    }
  }

  /** Joining parts that do not hold the separator and splitting again gives the parts back. */
  lemma {:induction false} SplitJoin(parts: seq<string>, sep: char)
    requires |parts| >= 1 && forall i :: 0 <= i < |parts| ==> sep !in parts[i]
    ensures Split(Join(parts, [sep]), sep) == parts
    decreases |parts|
  {
    SplitWithoutSeparator(parts[0], sep);
    if |parts| > 1 {
      SplitJoin(parts[1..], sep);
      SplitConcat(parts[0], Join(parts[1..], [sep]), sep);
      assert parts == [parts[0]] + parts[1..];
    }
  }

  /** Whatever `b` holds, `a + b` holds too. */
  lemma {:induction false} ContainsAfter(a: string, b: string, p: string)
    requires Contains(b, p)
    ensures Contains(a + b, p)
    decreases |a|
  {
    if |a| > 0 {
      ContainsAfter(a[1..], b, p);
      assert (a + b)[1..] == a[1..] + b;
    } else {
      assert a + b == b;
    }
  }

  /** A joined string holds each of its parts. */
  lemma {:induction false} JoinHoldsParts(parts: seq<string>, sep: string, i: nat)
    requires i < |parts|
    ensures Contains(Join(parts, sep), parts[i])
    decreases i
  {
    if |parts| == 1 {
      ContainsInfix("", parts[0], "");
      assert "" + parts[0] + "" == parts[0];
    } else if i == 0 {
      ContainsInfix("", parts[0], sep + Join(parts[1..], sep));
      assert "" + parts[0] + (sep + Join(parts[1..], sep)) == Join(parts, sep);
    } else {
      JoinHoldsParts(parts[1..], sep, i - 1);
      ContainsAfter(parts[0] + sep, Join(parts[1..], sep), parts[i]);
    }
  }

  // ---------------------------------------------------------------------
  // trim
  // ---------------------------------------------------------------------

  /** The white space and line terminators `String.prototype.trim` removes. */
  predicate IsJsSpace(c: char)
  {
    c == '\t' || c == '\n' || c == '\U{000B}' || c == '\U{000C}' || c == '\r' || c == ' '
    || c == '\U{00A0}' || c == '\U{1680}' || ('\U{2000}' <= c <= '\U{200A}')
    || c == '\U{2028}' || c == '\U{2029}' || c == '\U{202F}' || c == '\U{205F}'
    || c == '\U{3000}' || c == '\U{FEFF}'
  }

  predicate AllSpace(s: string) { forall i :: 0 <= i < |s| ==> IsJsSpace(s[i]) }

  function TrimStart(s: string): (r: string)
    ensures |r| <= |s| && r == s[|s| - |r|..]
    ensures r == "" || !IsJsSpace(r[0])
    ensures AllSpace(s[..|s| - |r|])
    decreases |s|
  {
    if |s| > 0 && IsJsSpace(s[0]) then
      var r := TrimStart(s[1..]);
      assert s[..|s| - |r|] == [s[0]] + s[1..][..|s| - 1 - |r|];
      r
    else s
  }

  function TrimEnd(s: string): (r: string)
    ensures |r| <= |s| && r == s[..|r|]
    ensures r == "" || !IsJsSpace(r[|r| - 1])
    ensures AllSpace(s[|r|..])
    decreases |s|
  {
    if |s| > 0 && IsJsSpace(s[|s| - 1]) then
      var r := TrimEnd(s[..|s| - 1]);
      assert s[|r|..] == s[..|s| - 1][|r|..] + [s[|s| - 1]];
      r
    else s
  }

  /** `s.trim()`. */
  function Trim(s: string): string { TrimEnd(TrimStart(s)) }

  /** `!s.trim()` holds exactly for strings made of white space only. */
  lemma TrimEmptyIffBlank(s: string)
    ensures Trim(s) == "" <==> AllSpace(s)
  {
    var t := TrimStart(s);
    var k := |s| - |t|;
    if Trim(s) == "" {
      var u := TrimEnd(t);
      assert u == "";
      assert AllSpace(t[0..]);
      forall i | 0 <= i < |s| ensures IsJsSpace(s[i]) {
        if i < k {
          assert s[i] == s[..k][i];
        } else {
          assert s[i] == t[i - k];
          assert t[i - k] == t[0..][i - k];
        }
      }
    }
  }

  // ---------------------------------------------------------------------
  // Case mapping (ASCII letters)
  // ---------------------------------------------------------------------

  function LowerChar(c: char): char { if 'A' <= c <= 'Z' then (c as int + 32) as char else c }
  function UpperChar(c: char): char { if 'a' <= c <= 'z' then (c as int - 32) as char else c }

  function Lower(s: string): (r: string)
    ensures |r| == |s| && forall i :: 0 <= i < |s| ==> r[i] == LowerChar(s[i])
  {
    seq(|s|, i requires 0 <= i < |s| => LowerChar(s[i]))
  }

  function Upper(s: string): (r: string)
    ensures |r| == |s| && forall i :: 0 <= i < |s| ==> r[i] == UpperChar(s[i])
  {
    seq(|s|, i requires 0 <= i < |s| => UpperChar(s[i]))
  }

  // ---------------------------------------------------------------------
  // Number.prototype.toString(radix) for integers
  // ---------------------------------------------------------------------

  function Digit(d: nat): (c: char)
    requires d < 36
    ensures c != '-' && DigitValue(c) == Some(d)
  {
    if d < 10 then ('0' as int + d) as char else ('a' as int + d - 10) as char
  }

  function DigitValue(c: char): Option<nat>
  {
    if '0' <= c <= '9' then Some(c as int - '0' as int)
    else if 'a' <= c <= 'z' then Some(c as int - 'a' as int + 10)
    else None
  }

  function Digits(n: nat, base: nat): (r: string)
    requires 2 <= base <= 36
    ensures |r| >= 1 && r[0] != '-'
    decreases n
  {
    if n < base then [Digit(n)]
    else
      DivStep(n, base);
      Digits(n / base, base) + [Digit(n % base)]
  }

  lemma DivStep(n: nat, base: nat)
    requires 2 <= base <= n
    ensures 0 < n / base < n && 0 <= n % base < base && n == n / base * base + n % base
  {
  }

  /** `n.toString(base)`: a minus sign, then the digits of the magnitude, most significant first. */
  function ToRadix(n: int, base: nat): string
    requires 2 <= base <= 36
  {
    if n < 0 then "-" + Digits(-n, base) else Digits(n, base)
  }

  /** `n.toString()` */
  function Decimal(n: int): string { ToRadix(n, 10) }

  function ParseDigits(s: string, base: nat): Option<nat>
    requires 2 <= base <= 36
    decreases |s|
  {
    if |s| == 0 then None
    else
      var d := DigitValue(s[|s| - 1]);
      if d.None? || d.value >= base then None
      else if |s| == 1 then Some(d.value)
      else
        match ParseDigits(s[..|s| - 1], base)
        case None => None
        case Some(v) => Some(v * base + d.value)
  }

  /** Reads back what `ToRadix` writes. */
  function FromRadix(s: string, base: nat): Option<int>
    requires 2 <= base <= 36
  {
    if |s| > 0 && s[0] == '-' then
      match ParseDigits(s[1..], base)
      case None => None
      case Some(v) => var neg: int := -(v as int); Some(neg)
    else
      match ParseDigits(s, base)
      case None => None
      case Some(v) => Some(v)
  }

  lemma {:induction false} DigitsRoundTrip(n: nat, base: nat)
    requires 2 <= base <= 36
    ensures ParseDigits(Digits(n, base), base) == Some(n)
    decreases n
  {
    if n >= base {
      DivStep(n, base);
      var s := Digits(n, base);
      var front := Digits(n / base, base);
      assert s[..|s| - 1] == front;
      DigitsRoundTrip(n / base, base);
    }
  }

  /** Every integer is read back from its rendering in any base from 2 to 36. */
  lemma RadixRoundTrip(n: int, base: nat)
    requires 2 <= base <= 36
    ensures FromRadix(ToRadix(n, base), base) == Some(n)
  {
    if n < 0 {
      DigitsRoundTrip(-n, base);
      assert ("-" + Digits(-n, base))[1..] == Digits(-n, base);
    } else {
      DigitsRoundTrip(n, base);
    }
  }

  /** So two integers render alike only when they are equal. */
  lemma RadixInjective(m: int, n: int, base: nat)
    requires 2 <= base <= 36
    ensures ToRadix(m, base) == ToRadix(n, base) <==> m == n
  {
    RadixRoundTrip(m, base);
    RadixRoundTrip(n, base);
  }

  // ---------------------------------------------------------------------
  // UTF-16 code units (what charCodeAt, length and substring count)
  // ---------------------------------------------------------------------

  function CodeUnits(c: char): (u: seq<int>)
    ensures 1 <= |u| <= 2
    ensures forall k :: 0 <= k < |u| ==> 0 <= u[k] < 0x1_0000
    ensures |u| == 1 <==> c as int < 0x1_0000
  {
    var v := c as int;
    if v < 0x1_0000 then [v]
    else [0xD800 + (v - 0x1_0000) / 0x400, 0xDC00 + (v - 0x1_0000) % 0x400]
  }

  /** The UTF-16 encoding of a string, one code unit per element. */
  function Utf16(s: string): (u: seq<int>)
    ensures |u| >= |s|
    ensures forall k :: 0 <= k < |u| ==> 0 <= u[k] < 0x1_0000
  {
    if |s| == 0 then [] else CodeUnits(s[0]) + Utf16(s[1..])
  }

  // ---------------------------------------------------------------------
  // encodeURIComponent
  // ---------------------------------------------------------------------

  /** The characters `encodeURIComponent` leaves alone. */
  predicate Unreserved(c: char)
  {
    ('A' <= c <= 'Z') || ('a' <= c <= 'z') || ('0' <= c <= '9')
    || c == '-' || c == '_' || c == '.' || c == '!' || c == '~' || c == '*' || c == '\'' || c == '(' || c == ')'
  }

  function Utf8(c: char): (bytes: seq<nat>)
    ensures 1 <= |bytes| <= 4 && forall k :: 0 <= k < |bytes| ==> bytes[k] < 256
  {
    var v := c as int;
    if v < 0x80 then [v]
    else if v < 0x800 then [0xC0 + v / 64, 0x80 + v % 64]
    else if v < 0x1_0000 then [0xE0 + v / 4096, 0x80 + (v / 64) % 64, 0x80 + v % 64]
    else [0xF0 + v / 262144, 0x80 + (v / 4096) % 64, 0x80 + (v / 64) % 64, 0x80 + v % 64]
  }

  function HexDigit(d: nat): (c: char)
    requires d < 16
    ensures Unreserved(c)
  {
    if d < 10 then ('0' as int + d) as char else ('A' as int + d - 10) as char
  }

  predicate UriSafe(c: char) { Unreserved(c) || c == '%' }

  function PercentBytes(bytes: seq<nat>): (r: string)
    requires forall k :: 0 <= k < |bytes| ==> bytes[k] < 256
    ensures |r| == 3 * |bytes|
    ensures forall i :: 0 <= i < |r| ==> UriSafe(r[i])
  {
    if |bytes| == 0 then ""
    else ['%', HexDigit(bytes[0] / 16), HexDigit(bytes[0] % 16)] + PercentBytes(bytes[1..])
  }

  function EncodeChar(c: char): (r: string)
    ensures forall i :: 0 <= i < |r| ==> UriSafe(r[i])
    ensures Unreserved(c) <==> r == [c]
    ensures |r| == 1 || |r| >= 3
  {
    if Unreserved(c) then [c] else PercentBytes(Utf8(c))
  }

  /**
   * `encodeURIComponent(s)`: unreserved characters pass through, every other
   * character becomes the percent-escapes of its UTF-8 bytes.
   */
  function EncodeUriComponent(s: string): (r: string)
    ensures forall i :: 0 <= i < |r| ==> UriSafe(r[i])
    ensures |r| >= |s|
    ensures |r| == |s| <==> forall i :: 0 <= i < |s| ==> Unreserved(s[i])
    ensures (forall i :: 0 <= i < |s| ==> Unreserved(s[i])) ==> r == s
  {
    if |s| == 0 then ""
    else
      var head := EncodeChar(s[0]);
      var tail := EncodeUriComponent(s[1..]);
      assert forall i :: 0 <= i < |head + tail| ==> UriSafe((head + tail)[i]) by {
        forall i | 0 <= i < |head + tail| ensures UriSafe((head + tail)[i]) {
          if i < |head| { } else { assert (head + tail)[i] == tail[i - |head|]; }
        }
      }
      assert (forall i :: 0 <= i < |s| ==> Unreserved(s[i])) <==>
             Unreserved(s[0]) && forall i :: 0 <= i < |s[1..]| ==> Unreserved(s[1..][i]) by {
        if forall i :: 0 <= i < |s[1..]| ==> Unreserved(s[1..][i]) {
          assert forall i :: 1 <= i < |s| ==> s[i] == s[1..][i - 1];
        }
      }
      assert s == [s[0]] + s[1..];
      head + tail
  }

  /** An encoded component never holds a brace, so no `{placeholder}` can appear in it. */
  lemma EncodedHasNoBrace(s: string)
    ensures '{' !in EncodeUriComponent(s) && '}' !in EncodeUriComponent(s)
  {
    var r := EncodeUriComponent(s);
    assert forall i :: 0 <= i < |r| ==> r[i] != '{' && r[i] != '}';
  }
}
