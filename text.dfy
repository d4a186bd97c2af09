/** The string operations the planner relies on: decimal rendering of
    numbers (`toString`), `padStart(2, '0')`, `trim`, `toLowerCase`,
    `includes`, and `join` with its inverse. */
module Text {

  predicate IsDigit(c: char) { '0' <= c <= '9' }

  predicate AllDigits(s: string) { forall k :: 0 <= k < |s| ==> IsDigit(s[k]) }

  function DigitChar(d: nat): (c: char)
    requires d < 10
    ensures IsDigit(c)
  {
    ('0' as int + d) as char
  }

  function DigitValue(c: char): (d: nat)
    requires IsDigit(c)
    ensures d < 10 && DigitChar(d) == c
  {
    c as int - '0' as int
  }

  /** Decimal rendering of a non-negative integer, as `n.toString()`. */
  function NatToString(n: nat): (s: string)
    ensures 1 <= |s| && AllDigits(s)
    ensures n < 10 <==> |s| == 1
    ensures 10 <= n < 100 <==> |s| == 2
    ensures n >= 1 ==> s[0] != '0'
    decreases n
  {
    if n < 10 then [DigitChar(n)] else NatToString(n / 10) + [DigitChar(n % 10)]
  }

  /** The value of a string of decimal digits (`parseInt(s, 10)` on digits). */
  function ParseNat(s: string): nat
    requires AllDigits(s)
    decreases |s|
  {
    if s == [] then 0 else ParseNat(s[..|s| - 1]) * 10 + DigitValue(s[|s| - 1])
  }

  /** Parsing undoes rendering. */
  lemma {:induction false} ParseNatToString(n: nat)
    ensures ParseNat(NatToString(n)) == n
    decreases n
  {
    if n >= 10 {
      var s := NatToString(n);
      assert s[..|s| - 1] == NatToString(n / 10);
      ParseNatToString(n / 10);
    }
  }

  /** Leading zeros do not change the parsed value. */
  lemma {:induction false} ParseNatLeadingZero(s: string)
    requires AllDigits(s)
    ensures AllDigits("0" + s) && ParseNat("0" + s) == ParseNat(s)
    decreases |s|
  {
    var z := "0" + s;
    if s != [] {
      assert z[..|z| - 1] == "0" + s[..|s| - 1];
      ParseNatLeadingZero(s[..|s| - 1]);
    }
  }

  /** `s.padStart(2, '0')`. */
  function PadStart2(s: string): (r: string)
    ensures |s| >= 2 ==> r == s
    ensures |s| < 2 ==> |r| == 2 && r[2 - |s|..] == s && forall k :: 0 <= k < 2 - |s| ==> r[k] == '0'
  {
    if |s| >= 2 then s else if |s| == 1 then "0" + s else "00"
  }

  /** A number below 100, rendered and padded, is two digits that parse back. */
  lemma TwoDigits(n: nat)
    requires n < 100
    ensures |PadStart2(NatToString(n))| == 2 && AllDigits(PadStart2(NatToString(n)))
    ensures ParseNat(PadStart2(NatToString(n))) == n
  {
    ParseNatToString(n);
    if n < 10 {
      ParseNatLeadingZero(NatToString(n));
    }
  }

  /** Two digits, parsed, rendered and padded, give back the same two digits. */
  lemma TwoDigitsRoundTrip(s: string)
    requires |s| == 2 && AllDigits(s)
    ensures ParseNat(s) < 100 && PadStart2(NatToString(ParseNat(s))) == s
  {
    assert s[..1][..0] == [] && s[..1][0] == s[0] && s[..|s| - 1] == s[..1];
    assert ParseNat(s[..1]) == DigitValue(s[0]);
    var n := ParseNat(s);
    assert n == DigitValue(s[0]) * 10 + DigitValue(s[1]);
    if DigitValue(s[0]) == 0 {
      assert NatToString(n) == [s[1]];
    } else {
      assert n / 10 == DigitValue(s[0]) && n % 10 == DigitValue(s[1]);
      assert NatToString(n) == [s[0]] + [s[1]];
    }
  }

  /** The characters `String.prototype.trim` removes: ECMAScript WhiteSpace
      (tab, vertical tab, form feed, no-break space, byte-order mark and the
      Unicode space separators) and LineTerminator (LF, CR, U+2028, U+2029). */
  predicate IsWhitespace(c: char) {
    var n := c as int;
    n == 0x09 || n == 0x0A || n == 0x0B || n == 0x0C || n == 0x0D || n == 0x20 ||
    n == 0xA0 || n == 0x1680 || (0x2000 <= n <= 0x200A) || n == 0x2028 || n == 0x2029 ||
    n == 0x202F || n == 0x205F || n == 0x3000 || n == 0xFEFF
  }

  predicate IsBlank(s: string) { forall k :: 0 <= k < |s| ==> IsWhitespace(s[k]) }

  /** The number of whitespace characters `s` starts with. */
  function LeadingBlank(s: string): (n: nat)
    ensures n <= |s| && IsBlank(s[..n]) && (n == |s| || !IsWhitespace(s[n]))
    decreases |s|
  {
    if s != [] && IsWhitespace(s[0]) then
      var n := 1 + LeadingBlank(s[1..]);
      assert s[..n] == [s[0]] + s[1..][..n - 1];
      n
    else 0
  }

  /** The index at which the whitespace `s` ends with begins. */
  function TrailingBlank(s: string): (j: nat)
    ensures j <= |s| && IsBlank(s[j..]) && (j == 0 || !IsWhitespace(s[j - 1]))
    decreases |s|
  {
    if s != [] && IsWhitespace(s[|s| - 1]) then
      var j := TrailingBlank(s[..|s| - 1]);
      assert s[j..] == s[..|s| - 1][j..] + [s[|s| - 1]];
      j
    else |s|
  }

  /** `s.trim()`: `s` with its leading and trailing whitespace cut off. */
  function Trim(s: string): (r: string)
    ensures r == [] || (!IsWhitespace(r[0]) && !IsWhitespace(r[|r| - 1]))
    ensures exists i, j :: 0 <= i <= j <= |s| && r == s[i..j] && IsBlank(s[..i]) && IsBlank(s[j..])
  {
    var i := LeadingBlank(s);
    var t := s[i..];
    var j := TrailingBlank(t);
    assert t[..j] == s[i..i + j] && t[j..] == s[i + j..];
    assert j > 0 ==> t[0] == s[i];
    t[..j]
  }

  /** A trimmed string is empty exactly when the input is all whitespace:
      the test `!s.trim()` rejects blank input. */
  lemma TrimEmptyIffBlank(s: string)
    ensures Trim(s) == [] <==> IsBlank(s)
  {
    var r := Trim(s);
    var i, j :| 0 <= i <= j <= |s| && r == s[i..j] && IsBlank(s[..i]) && IsBlank(s[j..]);
    if r == [] {
      assert i == j;
      forall k | 0 <= k < |s| ensures IsWhitespace(s[k]) {
        if k < i { assert s[k] == s[..i][k]; } else { assert s[k] == s[j..][k - j]; }
      }
    } else {
      assert r[0] == s[i] && !IsWhitespace(s[i]);
    }
  }

  /** Trimming twice is trimming once. */
  lemma TrimIdempotent(s: string)
    ensures Trim(Trim(s)) == Trim(s)
  {
    var r := Trim(s);
    assert LeadingBlank(r) == 0;
    assert TrailingBlank(r) == |r|;
  }

  /** ASCII case folding; the letters A-Z become a-z. */
  function ToLowerChar(c: char): (l: char)
    ensures 'A' <= c <= 'Z' ==> l as int == c as int + 32
    ensures !('A' <= c <= 'Z') ==> l == c
  {
    if 'A' <= c <= 'Z' then (c as int + 32) as char else c
  }

  function ToLower(s: string): (r: string)
    ensures |r| == |s| && forall k :: 0 <= k < |s| ==> r[k] == ToLowerChar(s[k])
  {
    seq(|s|, k requires 0 <= k < |s| => ToLowerChar(s[k]))
  }

  /** `s.includes(sub)`: `sub` occurs in `s` as a contiguous slice. */
  predicate Contains(s: string, sub: string) {
    exists i :: 0 <= i <= |s| - |sub| && OccursAt(s, sub, i)
  }

  predicate OccursAt(s: string, sub: string, i: int)
    requires 0 <= i <= |s| - |sub|
  {
    s[i..i + |sub|] == sub
  }

  /** The empty string occurs in every string. */
  lemma ContainsEmpty(s: string)
    ensures Contains(s, "")
  {
    assert OccursAt(s, "", 0);
  }

  /** `lines.join(sep)`. */
  function Join(lines: seq<string>, sep: string): string
  {
    if lines == [] then "" else if |lines| == 1 then lines[0] else lines[0] + sep + Join(lines[1..], sep)
  }

  const CRLF: string := "\r\n"

  /** Splits a text at every CR LF pair: the inverse of joining with CRLF. */
  function SplitCRLF(s: string): (r: seq<string>)
    ensures |r| >= 1
    decreases |s|
  {
    if |s| >= 2 && s[0] == '\r' && s[1] == '\n' then [""] + SplitCRLF(s[2..])
    else if s == [] then [""]
    else
      var rest := SplitCRLF(s[1..]);
      [[s[0]] + rest[0]] + rest[1..]
  }

  lemma {:induction false} SplitLineThenRest(line: string, rest: string)
    requires '\r' !in line
    ensures SplitCRLF(line + rest) == [line + SplitCRLF(rest)[0]] + SplitCRLF(rest)[1..]
    decreases |line|
  {
    if line != [] {
      var s := line + rest;
      assert s[0] == line[0] && s[1..] == line[1..] + rest;
      assert s[0] != '\r';
      SplitLineThenRest(line[1..], rest);
      var x := SplitCRLF(rest);
      var r := SplitCRLF(s[1..]);
      assert r[0] == line[1..] + x[0] && r[1..] == x[1..];
      assert SplitCRLF(s) == [[s[0]] + r[0]] + r[1..];
      assert [s[0]] + (line[1..] + x[0]) == line + x[0];
    } else {
      assert line + rest == rest;
      assert line + SplitCRLF(rest)[0] == SplitCRLF(rest)[0];
      assert SplitCRLF(rest) == [SplitCRLF(rest)[0]] + SplitCRLF(rest)[1..];
    }
  }

  /** Splitting a CRLF-joined text at CRLF gives back its lines, provided no
      line holds a carriage return. */
  lemma {:induction false} SplitJoin(lines: seq<string>)
    requires |lines| >= 1
    requires forall k :: 0 <= k < |lines| ==> '\r' !in lines[k]
    ensures SplitCRLF(Join(lines, CRLF)) == lines
    decreases |lines|
  {
    if |lines| == 1 {
      SplitLineThenRest(lines[0], "");
      assert SplitCRLF("") == [""];
      assert lines[0] + "" == lines[0];
    } else {
      var tail := Join(lines[1..], CRLF);
      assert Join(lines, CRLF) == lines[0] + (CRLF + tail);
      SplitLineThenRest(lines[0], CRLF + tail);
      var c := CRLF + tail;
      assert c[0] == '\r' && c[1] == '\n' && c[2..] == tail;
      assert SplitCRLF(c) == [""] + SplitCRLF(tail);
      SplitJoin(lines[1..]);
      assert lines[0] + "" == lines[0];
      assert lines == [lines[0]] + lines[1..];
    }
  }
}
