/** Helpers shared by every module: an Option type and the small part of
    JavaScript's string and number behaviour that the front end relies on
    (trim, toLowerCase, split, join, includes, startsWith, number-to-string
    and parseInt on digit strings). */
module Text {

  datatype Option<+T> = None | Some(value: T) {
    function GetOr(default: T): T {
      match this
      case Some(v) => v
      case None => default
    }
  }

  /** JavaScript's `\s` and the characters `String.prototype.trim` removes:
      ASCII white space, the Unicode space separators, the line and paragraph
      separators and the byte-order mark. */
  predicate IsSpace(c: char) {
    c == ' ' || c == '\t' || c == '\n' || c == '\r' || c == '\U{000B}' || c == '\U{000C}'
    || c == '\U{00A0}' || c == '\U{1680}' || ('\U{2000}' <= c <= '\U{200A}')
    || c == '\U{2028}' || c == '\U{2029}' || c == '\U{202F}' || c == '\U{205F}'
    || c == '\U{3000}' || c == '\U{FEFF}'
  }

  predicate IsDigit(c: char) { '0' <= c <= '9' }

  /** JavaScript's `\w`. */
  predicate IsWordChar(c: char) {
    ('a' <= c <= 'z') || ('A' <= c <= 'Z') || IsDigit(c) || c == '_'
  }

  predicate NoSpace(s: string) { forall i :: 0 <= i < |s| ==> !IsSpace(s[i]) }

  predicate AllDigits(s: string) { forall i :: 0 <= i < |s| ==> IsDigit(s[i]) }

  predicate AllWordChars(s: string) { forall i :: 0 <= i < |s| ==> IsWordChar(s[i]) }

  // ---------------------------------------------------------------------------
  // trim

  /** `s.trim()`: drops white space at both ends and nothing else. It is
      defined by peeling one end at a time, which keeps its unfolding under
      the verifier's fuel control. */
  function Trim(s: string): string
    decreases |s|
  {
    if |s| > 0 && IsSpace(s[0]) then Trim(s[1..])
    else if |s| > 0 && IsSpace(s[|s| - 1]) then Trim(s[..|s| - 1])
    else s
  }

  /** The trimmed string is a slice of the input that neither starts nor
      ends with white space, and only white space was cut. */
  lemma {:induction false} TrimIsSlice(s: string)
    ensures exists i, j :: TrimmedAt(s, i, j)
    decreases |s|
  {
    if |s| > 0 && IsSpace(s[0]) {
      TrimIsSlice(s[1..]);
      var i, j :| TrimmedAt(s[1..], i, j);
      assert TrimmedAt(s, i + 1, j + 1);
    } else if |s| > 0 && IsSpace(s[|s| - 1]) {
      TrimIsSlice(s[..|s| - 1]);
      var i, j :| TrimmedAt(s[..|s| - 1], i, j);
      assert TrimmedAt(s, i, j);
    } else {
      assert TrimmedAt(s, 0, |s|);
    }
  }

  /** `Trim(s)` is `s[i..j]`, with white space only outside that range and
      no white space at its ends. */
  predicate TrimmedAt(s: string, i: int, j: int) {
    0 <= i <= j <= |s| && Trim(s) == s[i..j]
    && (forall k :: 0 <= k < i ==> IsSpace(s[k]))
    && (forall k :: j <= k < |s| ==> IsSpace(s[k]))
    && (i < j ==> !IsSpace(s[i]) && !IsSpace(s[j - 1]))
  }

  /** `!s.trim()`: the string is empty after trimming. */
  predicate IsBlank(s: string) { Trim(s) == [] }

  /** JavaScript's `.length`: the number of UTF-16 code units, so a
      character outside the Basic Multilingual Plane counts twice. */
  function JsLength(s: string): (n: nat)
    ensures |s| <= n <= 2 * |s|
  {
    if s == [] then 0 else (if s[0] as int < 0x1_0000 then 1 else 2) + JsLength(s[1..])
  }

  /** Inside the Basic Multilingual Plane the two counts agree. */
  lemma {:induction false} JsLengthOfBmp(s: string)
    requires forall i :: 0 <= i < |s| ==> s[i] as int < 0x1_0000
    ensures JsLength(s) == |s|
  {
    if s != [] {
      JsLengthOfBmp(s[1..]);
    }
  }

  lemma {:induction false} BlankIffAllSpace(s: string)
    ensures IsBlank(s) <==> forall i :: 0 <= i < |s| ==> IsSpace(s[i])
    decreases |s|
  {
    if |s| > 0 && IsSpace(s[0]) {
      BlankIffAllSpace(s[1..]);
      assert forall i :: 1 <= i < |s| ==> s[i] == s[1..][i - 1];
    } else if |s| > 0 && IsSpace(s[|s| - 1]) {
      BlankIffAllSpace(s[..|s| - 1]);
      assert |s| > 1 && s[..|s| - 1][0] == s[0];
    }
  }

  // ---------------------------------------------------------------------------
  // case and substrings

  function LowerChar(c: char): (r: char)
    ensures ('A' <= c <= 'Z') ==> r as int == c as int + 32
    ensures !('A' <= c <= 'Z') ==> r == c
  {
    if 'A' <= c <= 'Z' then (c as int + 32) as char else c
  }

  /** `s.toLowerCase()`, restricted to ASCII letters. */
  function ToLower(s: string): (r: string)
    ensures |r| == |s|
    ensures forall i :: 0 <= i < |s| ==> r[i] == LowerChar(s[i])
  {
    if s == [] then [] else [LowerChar(s[0])] + ToLower(s[1..])
  }

  predicate StartsWith(s: string, prefix: string) {
    |prefix| <= |s| && s[..|prefix|] == prefix
  }

  /** `s.includes(sub)`. */
  ghost predicate Contains(s: string, sub: string) {
    exists i :: 0 <= i && OccursAt(s, sub, i)
  }

  predicate OccursAt(s: string, sub: string, i: nat) {
    i + |sub| <= |s| && s[i..i + |sub|] == sub
  }

  /** Decidable form of `Contains`, scanning start positions from `from`. */
  function ContainsFrom(s: string, sub: string, from: nat): (b: bool)
    decreases |s| - from
    ensures b <==> exists i :: from <= i && OccursAt(s, sub, i)
  {
    if from + |sub| > |s| then false
    else if OccursAt(s, sub, from) then true
    else ContainsFrom(s, sub, from + 1)
  }

  function Includes(s: string, sub: string): (b: bool)
    ensures b <==> Contains(s, sub)
  {
    ContainsFrom(s, sub, 0)
  }

  /** The position of the first occurrence of `c`. */
  function FirstIndex(s: string, c: char): (k: nat)
    requires c in s
    ensures k < |s| && s[k] == c && c !in s[..k]
  {
    if s[0] == c then 0 else
      assert c in s[1..] by { var j :| 0 <= j < |s| && s[j] == c; assert s[1..][j - 1] == c; }
      1 + FirstIndex(s[1..], c)
  }

  /** The first occurrence is the one with no earlier occurrence. */
  lemma FirstIndexAt(s: string, c: char, i: nat)
    requires i < |s| && s[i] == c && c !in s[..i]
    ensures c in s && FirstIndex(s, c) == i
  {
    var k := FirstIndex(s, c);
    forall j | 0 <= j < i ensures s[j] != c { assert s[..i][j] == s[j]; }
    forall j | 0 <= j < k ensures s[j] != c { assert s[..k][j] == s[j]; }
  }

  lemma ContainsEmpty(s: string)
    ensures Contains(s, [])
  {
    assert OccursAt(s, [], 0);
  }

  // ---------------------------------------------------------------------------
  // split and join

  function CountChar(s: string, c: char): nat {
    if s == [] then 0 else (if s[0] == c then 1 else 0) + CountChar(s[1..], c)
  }

  /** `s.split(c)` for a one-character separator: the pieces between the
      separators, always at least one. */
  function Split(s: string, c: char): (parts: seq<string>)
    ensures |parts| >= 1
    ensures forall k :: 0 <= k < |parts| ==> c !in parts[k]
  {
    if s == [] then [[]]
    else
      var rest := Split(s[1..], c);
      if s[0] == c then [[]] + rest else [[s[0]] + rest[0]] + rest[1..]
  }

  /** `parts.join(sep)`. */
  function Join(parts: seq<string>, sep: string): string {
    if parts == [] then []
    else if |parts| == 1 then parts[0]
    else parts[0] + sep + Join(parts[1..], sep)
  }

  lemma {:induction false} SplitCount(s: string, c: char)
    ensures |Split(s, c)| == CountChar(s, c) + 1
  {
    if s != [] {
      SplitCount(s[1..], c);
    }
  }

  lemma {:induction false} JoinSplit(s: string, c: char)
    ensures Join(Split(s, c), [c]) == s
  {
    if s != [] {
      var rest := Split(s[1..], c);
      JoinSplit(s[1..], c);
      if s[0] == c {
        assert Split(s, c) == [[]] + rest;
        assert Join(Split(s, c), [c]) == [] + [c] + Join(rest, [c]);
      } else {
        var parts := [[s[0]] + rest[0]] + rest[1..];
        assert Split(s, c) == parts;
        if |rest| == 1 {
          assert Join(parts, [c]) == [s[0]] + rest[0];
        } else {
          assert Join(rest, [c]) == rest[0] + [c] + Join(rest[1..], [c]);
          assert parts[1..] == rest[1..];
          assert Join(parts, [c]) == ([s[0]] + rest[0]) + [c] + Join(rest[1..], [c]);
        }
      }
    }
  }

  /** A string without the separator splits into itself alone. */
  lemma {:induction false} SplitWithoutSeparator(s: string, c: char)
    requires c !in s
    ensures Split(s, c) == [s]
  {
    if s != [] {
      assert s[0] != c && c !in s[1..];
      SplitWithoutSeparator(s[1..], c);
      assert [s[0]] + s[1..] == s;
    }
  }

  /** Splitting at the first separator: the piece before it, then the split
      of the rest. */
  lemma {:induction false} SplitAtFirst(a: string, c: char, b: string)
    requires c !in a
    ensures Split(a + [c] + b, c) == [a] + Split(b, c)
  {
    if a == [] {
      assert a + [c] + b == [c] + b;
      assert ([c] + b)[1..] == b;
    } else {
      SplitAtFirst(a[1..], c, b);
      assert (a + [c] + b)[1..] == a[1..] + [c] + b;
      assert [a[0]] + a[1..] == a;
    }
  }

  lemma {:induction false} JoinLength(parts: seq<string>, sep: string)
    requires |parts| >= 1
    ensures |Join(parts, sep)| == SumLengths(parts) + (|parts| - 1) * |sep|
  {
    if |parts| > 1 {
      JoinLength(parts[1..], sep);
    }
  }

  function SumLengths(parts: seq<string>): nat {
    if parts == [] then 0 else |parts[0]| + SumLengths(parts[1..])
  }

  // ---------------------------------------------------------------------------
  // numbers

  function DigitChar(d: nat): (c: char)
    requires d < 10
    ensures IsDigit(c) && c as int - '0' as int == d
  {
    ('0' as int + d) as char
  }

  /** `n.toString()` for a non-negative integer. */
  function NatToString(n: nat): (s: string)
    ensures |s| >= 1 && AllDigits(s)
    ensures n < 10 <==> |s| == 1
    decreases n
  {
    if n < 10 then [DigitChar(n)] else NatToString(n / 10) + [DigitChar(n % 10)]
  }

  /** `i.toString()` for any integer. */
  function IntToString(i: int): (s: string)
    ensures i >= 0 ==> s == NatToString(i)
    ensures i < 0 ==> s == "-" + NatToString(-i)
  {
    if i >= 0 then NatToString(i) else "-" + NatToString(-i)
  }

  /** The value of a string of decimal digits (what `parseInt` gives for it). */
  function DigitsValue(s: string): nat
    requires AllDigits(s)
  {
    if s == [] then 0 else DigitsValue(s[..|s| - 1]) * 10 + (s[|s| - 1] as int - '0' as int)
  }

  lemma {:induction false} DigitsValueOfNatToString(n: nat)
    ensures DigitsValue(NatToString(n)) == n
    decreases n
  {
    if n >= 10 {
      var s := NatToString(n);
      DigitsValueOfNatToString(n / 10);
      assert s[..|s| - 1] == NatToString(n / 10);
    }
  }

  /** `x.toString().padStart(2, '0')`. */
  function PadStart2(s: string): (r: string)
    ensures |r| == if |s| < 2 then 2 else |s|
    ensures r[|r| - |s|..] == s
    ensures forall i :: 0 <= i < |r| - |s| ==> r[i] == '0'
  {
    if |s| == 0 then "00" else if |s| == 1 then "0" + s else s
  }

  /** The longest prefix of `s` made of decimal digits. */
  function LeadingDigits(s: string): (r: string)
    ensures |r| <= |s| && r == s[..|r|]
    ensures AllDigits(r)
    ensures |r| < |s| ==> !IsDigit(s[|r|])
  {
    if s != [] && IsDigit(s[0]) then [s[0]] + LeadingDigits(s[1..]) else []
  }

  /** `parseInt(s) || 0`: leading white space is skipped, then an optional
      sign and the longest run of digits are read; a string without such
      digits (NaN) and the value 0 both give 0. */
  function ParseIntOrZero(s: string): (r: int)
  {
    if s == [] then 0
    else if IsSpace(s[0]) then ParseIntOrZero(s[1..])
    else if s[0] == '-' then -(DigitsValue(LeadingDigits(s[1..])) as int)
    else if s[0] == '+' then DigitsValue(LeadingDigits(s[1..]))
    else DigitsValue(LeadingDigits(s))
  }

  lemma ParseIntOfNatToString(n: nat, rest: string)
    requires rest == [] || !IsDigit(rest[0])
    ensures ParseIntOrZero(NatToString(n) + rest) == n
  {
    var s := NatToString(n);
    var t := s + rest;
    assert t[0] == s[0] && IsDigit(t[0]);
    LongestDigitsOfDigits(s, rest);
    DigitsValueOfNatToString(n);
  }

  /** `Number(s)` for the forms the front end passes it (route parameters
      and ids): surrounding white space is ignored, an empty string is 0, an
      optional sign followed by decimal digits is their value, and anything
      else is NaN (`None`). */
  function ToNumber(s: string): (r: Option<int>)
    ensures Trim(s) == [] ==> r == Some(0)
    ensures AllDigits(Trim(s)) ==> r == Some(DigitsValue(Trim(s)))
    ensures r.None? ==> Trim(s) != [] && !AllDigits(Trim(s))
  {
    var t := Trim(s);
    if t == [] then Some(0)
    else if AllDigits(t) then Some(DigitsValue(t))
    else if |t| > 1 && (t[0] == '-' || t[0] == '+') && AllDigits(t[1..]) then
      Some(if t[0] == '-' then -(DigitsValue(t[1..]) as int) else DigitsValue(t[1..]))
    else None
  }

  /** `Number(n.toString())` gives `n` back. */
  lemma ToNumberOfNatToString(n: nat)
    ensures ToNumber(NatToString(n)) == Some(n)
  {
    var s := NatToString(n);
    assert !IsSpace(s[0]) && !IsSpace(s[|s| - 1]);
    assert Trim(s) == s;
    DigitsValueOfNatToString(n);
  }

  /** A sign followed by the digits of `n` reads back as the signed value. */
  lemma SignedParse(sign: char, n: nat)
    requires sign == '+' || sign == '-'
    ensures ParseIntOrZero([sign] + NatToString(n)) == if sign == '+' then n as int else -(n as int)
  {
    var s := NatToString(n);
    var t := [sign] + s;
    assert t[0] == sign && t[1..] == s;
    LongestDigitsOfDigits(s, []);
    assert s + [] == s;
    DigitsValueOfNatToString(n);
  }

  lemma {:induction false} LongestDigitsOfDigits(s: string, rest: string)
    requires AllDigits(s)
    requires rest == [] || !IsDigit(rest[0])
    ensures LeadingDigits(s + rest) == s
  {
    if s != [] {
      assert (s + rest)[1..] == s[1..] + rest;
      LongestDigitsOfDigits(s[1..], rest);
    } else {
      assert s + rest == rest;
    }
  }
}
