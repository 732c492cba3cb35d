/**
 * The JavaScript string built-ins the core relies on, stated over `seq<char>`:
 * `startsWith`, `endsWith`, `includes`, `indexOf`, `lastIndexOf`, `split`,
 * `replace` (first occurrence, and the global `/\r/g` form), ASCII case
 * mapping, `String(n)` for integers and `Number.parseInt` without a radix.
 */
module JsText {
  import opened Wrappers

  /** `s.startsWith(p)` */
  predicate StartsWith(s: string, p: string) {
    |p| <= |s| && s[..|p|] == p
  }

  /** `s.endsWith(p)` */
  predicate EndsWith(s: string, p: string) {
    |p| <= |s| && s[|s| - |p|..] == p
  }

  /** `s.includes(p)`: some position of `s` starts an occurrence of `p`. */
  predicate Contains(s: string, p: string)
    decreases |s|
  {
    StartsWith(s, p) || (|s| > 0 && Contains(s[1..], p))
  }

  /** Concatenation of a sequence of strings. */
  function Flatten(ss: seq<string>): string {
    if ss == [] then [] else ss[0] + Flatten(ss[1..])
  }

  lemma {:induction false} FlattenAppend(a: seq<string>, b: seq<string>)
    ensures Flatten(a + b) == Flatten(a) + Flatten(b)
  {
    if a == [] {
      assert a + b == b;
    } else {
      assert (a + b)[1..] == a[1..] + b;
      FlattenAppend(a[1..], b);
    }
  }

  /** Number of occurrences of the character `c` in `s`. */
  function CountChar(s: string, c: char): nat {
    if s == [] then 0 else (if s[0] == c then 1 else 0) + CountChar(s[1..], c)
  }

  lemma {:induction false} CountCharAppend(a: string, b: string, c: char)
    ensures CountChar(a + b, c) == CountChar(a, c) + CountChar(b, c)
  {
    if a == [] {
      assert a + b == b;
    } else {
      assert (a + b)[1..] == a[1..] + b;
      CountCharAppend(a[1..], b, c);
    }
  }

  lemma {:induction false} CountCharAbsent(s: string, c: char)
    requires c !in s
    ensures CountChar(s, c) == 0
  {
    if s != [] {
      assert c !in s[1..];
      CountCharAbsent(s[1..], c);
    }
  }

  /** `s.replace(/\r/g, '')`: every carriage return removed, all other characters kept in order. */
  function StripCR(s: string): (r: string)
    ensures '\r' !in r
    ensures |r| == |s| - CountChar(s, '\r')
    ensures '\r' !in s ==> r == s
  {
    if s == [] then []
    else
      assert s[0] != '\r' ==> '\r' !in s ==> '\r' !in s[1..];
      (if s[0] == '\r' then [] else [s[0]]) + StripCR(s[1..])
  }

  lemma {:induction false} StripCRAppend(a: string, b: string)
    ensures StripCR(a + b) == StripCR(a) + StripCR(b)
  {
    if a == [] {
      assert a + b == b;
    } else {
      assert (a + b)[1..] == a[1..] + b;
      StripCRAppend(a[1..], b);
    }
  }

  /** `s.replace(pat, rep)` with a string pattern: only the first occurrence is replaced. */
  function ReplaceFirst(s: string, pat: string, rep: string): (r: string)
    requires |pat| > 0
    ensures !Contains(s, pat) ==> r == s
    ensures StartsWith(s, pat) ==> r == rep + s[|pat|..]
    decreases |s|
  {
    if StartsWith(s, pat) then rep + s[|pat|..]
    else if s == [] then []
    else [s[0]] + ReplaceFirst(s[1..], pat, rep)
  }

  /**
   * `s.split(sep)` for a non-empty separator: the pieces between the
   * leftmost non-overlapping occurrences of `sep`, always at least one piece.
   */
  function Split(s: string, sep: string): (parts: seq<string>)
    requires |sep| > 0
    ensures |parts| > 0
    decreases |s|
  {
    if |s| < |sep| then [s]
    else if s[..|sep|] == sep then [""] + Split(s[|sep|..], sep)
    else
      var rest := Split(s[1..], sep);
      [[s[0]] + rest[0]] + rest[1..]
  }

  /** `parts.join(sep)` */
  function Join(parts: seq<string>, sep: string): string
    requires |parts| > 0
  {
    if |parts| == 1 then parts[0] else parts[0] + sep + Join(parts[1..], sep)
  }

  lemma JoinConsHead(c: char, rest: seq<string>, sep: string)
    requires |rest| > 0
    ensures Join([[c] + rest[0]] + rest[1..], sep) == [c] + Join(rest, sep)
  {
    var parts := [[c] + rest[0]] + rest[1..];
    if |rest| > 1 {
      assert parts[1..] == rest[1..];
      assert Join(parts, sep) == ([c] + rest[0]) + sep + Join(rest[1..], sep);
    }
  }

  /** Splitting and joining with the same separator gives the original text back. */
  lemma {:induction false} JoinSplit(s: string, sep: string)
    requires |sep| > 0
    ensures Join(Split(s, sep), sep) == s
    decreases |s|
  {
    if |s| < |sep| {
      assert Split(s, sep) == [s];
    } else if s[..|sep|] == sep {
      var rest := s[|sep|..];
      JoinSplit(rest, sep);
      var parts := Split(s, sep);
      assert parts == [""] + Split(rest, sep);
      assert parts[1..] == Split(rest, sep);
      assert Join(parts, sep) == "" + sep + Join(Split(rest, sep), sep);
      assert s == sep + rest;
    } else {
      var rest := Split(s[1..], sep);
      JoinSplit(s[1..], sep);
      assert Split(s, sep) == [[s[0]] + rest[0]] + rest[1..];
      JoinConsHead(s[0], rest, sep);
      assert s == [s[0]] + s[1..];
    }
  }

  /** With a one-character separator, no piece contains the separator. */
  lemma {:induction false} SplitPiecesFree(s: string, c: char)
    ensures forall i :: 0 <= i < |Split(s, [c])| ==> c !in Split(s, [c])[i]
    decreases |s|
  {
    if |s| < 1 {
    } else if s[..1] == [c] {
      SplitPiecesFree(s[1..], c);
    } else {
      SplitPiecesFree(s[1..], c);
      var rest := Split(s[1..], [c]);
      assert s[0] != c by { assert s[..1] == [s[0]]; }
      assert c !in [s[0]] + rest[0];
    }
  }

  /** With a one-character separator, there is one more piece than separators. */
  lemma {:induction false} SplitPieceCount(s: string, c: char)
    ensures |Split(s, [c])| == CountChar(s, c) + 1
    decreases |s|
  {
    if |s| < 1 {
    } else if s[..1] == [c] {
      SplitPieceCount(s[1..], c);
    } else {
      assert s[0] != c by { assert s[..1] == [s[0]]; }
      SplitPieceCount(s[1..], c);
    }
  }

  /** `s.indexOf(c)` for a single character: the first position holding `c`, or -1. */
  function IndexOf(s: string, c: char): (r: int)
    ensures -1 <= r < |s|
    ensures r == -1 <==> c !in s
    ensures r >= 0 ==> s[r] == c && c !in s[..r]
  {
    if s == [] then -1
    else if s[0] == c then 0
    else
      var k := IndexOf(s[1..], c);
      if k < 0 then -1 else k + 1
  }

  /** `s.lastIndexOf(c)` for a single character: the last position holding `c`, or -1. */
  function LastIndexOf(s: string, c: char): (r: int)
    ensures -1 <= r < |s|
    ensures r == -1 <==> c !in s
    ensures r >= 0 ==> s[r] == c && c !in s[r + 1..]
  {
    if s == [] then -1
    else if s[|s| - 1] == c then |s| - 1
    else
      var k := LastIndexOf(s[..|s| - 1], c);
      assert s == s[..|s| - 1] + [s[|s| - 1]];
      k
  }

  /** `c.toUpperCase()` on ASCII letters; every other character is left alone. */
  function ToUpperAscii(c: char): (u: char)
    ensures 'a' <= c <= 'z' ==> u as int == c as int - 32
    ensures !('a' <= c <= 'z') ==> u == c
  {
    if 'a' <= c <= 'z' then (c as int - 32) as char else c
  }

  /** `c.toLowerCase()` on ASCII letters; every other character is left alone. */
  function ToLowerAscii(c: char): (l: char)
    ensures 'A' <= c <= 'Z' ==> l as int == c as int + 32
    ensures !('A' <= c <= 'Z') ==> l == c
  {
    if 'A' <= c <= 'Z' then (c as int + 32) as char else c
  }

  /** `s.toLowerCase()` restricted to ASCII letters. */
  function LowerAscii(s: string): (r: string)
    ensures |r| == |s|
    ensures forall i :: 0 <= i < |s| ==> r[i] == ToLowerAscii(s[i])
  {
    if s == [] then [] else [ToLowerAscii(s[0])] + LowerAscii(s[1..])
  }

  const DecimalDigits := "0123456789"

  predicate IsDecimalDigit(c: char) {
    '0' <= c <= '9'
  }

  predicate AllDecimalDigits(s: string) {
    forall i :: 0 <= i < |s| ==> IsDecimalDigit(s[i])
  }

  /** `String(n)` for a natural number: its decimal digits, most significant first, no leading zero. */
  function NatToString(n: nat): (s: string)
    ensures |s| > 0 && AllDecimalDigits(s)
    ensures |s| > 1 ==> s[0] != '0'
  {
    if n < 10 then [DecimalDigits[n]]
    else NatToString(n / 10) + [DecimalDigits[n % 10]]
  }

  /** `String(i)` for an integer: a minus sign before the digits of a negative value. */
  function IntToString(i: int): (s: string)
    ensures |s| > 0
    ensures i < 0 <==> s[0] == '-'
  {
    if i < 0 then "-" + NatToString(-i) else NatToString(i)
  }

  /** Value of a character as a digit in radix up to 16 (`0-9`, `a-f`, `A-F`); 99 for a non-digit. */
  function DigitValue(c: char): nat {
    if '0' <= c <= '9' then c as int - '0' as int
    else if 'a' <= c <= 'f' then c as int - 'a' as int + 10
    else if 'A' <= c <= 'F' then c as int - 'A' as int + 10
    else 99
  }

  /** The longest prefix of `s` made of digits of the given radix. */
  function DigitPrefix(s: string, radix: nat): (z: string)
    ensures |z| <= |s| && z == s[..|z|]
    ensures forall i :: 0 <= i < |z| ==> DigitValue(z[i]) < radix
    ensures |z| < |s| ==> DigitValue(s[|z|]) >= radix
  {
    if s != [] && DigitValue(s[0]) < radix then [s[0]] + DigitPrefix(s[1..], radix) else []
  }

  /** The value of a digit string in the given radix, most significant digit first. */
  function DigitsValue(z: string, radix: nat): nat {
    if z == [] then 0 else DigitsValue(z[..|z| - 1], radix) * radix + DigitValue(z[|z| - 1])
  }

  /**
   * The characters `Number.parseInt` skips before the number: the
   * ECMAScript WhiteSpace and LineTerminator code points.
   */
  predicate IsJsWhiteSpace(c: char) {
    c == '\t' || c == '\n' || c == '\U{B}' || c == '\U{C}' || c == '\r' || c == ' '
    || c == '\U{A0}' || c == '\U{1680}' || ('\U{2000}' <= c <= '\U{200A}')
    || c == '\U{2028}' || c == '\U{2029}' || c == '\U{202F}' || c == '\U{205F}'
    || c == '\U{3000}' || c == '\U{FEFF}'
  }

  function TrimStart(s: string): (t: string)
    ensures |t| <= |s| && t == s[|s| - |t|..]
    ensures t != [] ==> !IsJsWhiteSpace(t[0])
  {
    if s != [] && IsJsWhiteSpace(s[0]) then TrimStart(s[1..]) else s
  }

  /** The unsigned part of `Number.parseInt`: a `0x`/`0X` prefix selects radix 16, otherwise radix 10. */
  function ParseMagnitude(u: string): (r: Option<nat>)
    ensures r.None? <==> DigitPrefix(if StartsWith(u, "0x") || StartsWith(u, "0X") then u[2..] else u,
                                     if StartsWith(u, "0x") || StartsWith(u, "0X") then 16 else 10) == []
  {
    var hex := StartsWith(u, "0x") || StartsWith(u, "0X");
    var radix := if hex then 16 else 10;
    var z := DigitPrefix(if hex then u[2..] else u, radix);
    if z == [] then None else Some(DigitsValue(z, radix))
  }

  /**
   * `Number.parseInt(s)` with no radix: leading white space is skipped, one
   * sign is allowed, and the longest run of digits that follows is read.
   * `None` stands for `NaN` (no digits).
   */
  function ParseInt(s: string): (r: Option<int>)
  {
    var t := TrimStart(s);
    var negative := |t| > 0 && t[0] == '-';
    var u := if |t| > 0 && (t[0] == '-' || t[0] == '+') then t[1..] else t;
    match ParseMagnitude(u)
    case None => None
    case Some(v) =>
      var n: int := if negative then -(v as int) else v as int;
      Some(n)
  }

  /** JavaScript truthiness of a parsed number: neither `NaN` nor zero. */
  predicate Truthy(r: Option<int>) {
    r.Some? && r.value != 0
  }

  lemma {:induction false} DecimalRoundTrip(n: nat)
    ensures DigitsValue(NatToString(n), 10) == n
    decreases n
  {
    var s := NatToString(n);
    if n >= 10 {
      DecimalRoundTrip(n / 10);
      assert s[..|s| - 1] == NatToString(n / 10);
    }
  }

  lemma {:induction false} DigitPrefixAll(s: string, radix: nat)
    requires forall i :: 0 <= i < |s| ==> DigitValue(s[i]) < radix
    ensures DigitPrefix(s, radix) == s
    decreases |s|
  {
    if s != [] {
      DigitPrefixAll(s[1..], radix);
    }
  }

  lemma DecimalMagnitude(m: nat)
    ensures ParseMagnitude(NatToString(m)) == Some(m)
  {
    var digits := NatToString(m);
    assert !StartsWith(digits, "0x") && !StartsWith(digits, "0X");
    DigitPrefixAll(digits, 10);
    DecimalRoundTrip(m);
  }

  /** `Number.parseInt` of a run of decimal digits reads its magnitude. */
  lemma ParseIntUnsigned(s: string, m: nat)
    requires s != [] && IsDecimalDigit(s[0])
    requires ParseMagnitude(s) == Some(m)
    ensures ParseInt(s) == Some(m)
  {
    assert !IsJsWhiteSpace(s[0]);
    assert TrimStart(s) == s;
  }

  /** `Number.parseInt` of a minus sign followed by a number reads the negated magnitude. */
  lemma ParseIntNegative(s: string, m: nat)
    requires |s| > 1 && s[0] == '-'
    requires ParseMagnitude(s[1..]) == Some(m)
    ensures ParseInt(s) == Some(-(m as int))
  {
    assert !IsJsWhiteSpace(s[0]);
    assert TrimStart(s) == s;
  }

  lemma NatRoundTrip(n: nat)
    ensures ParseInt(NatToString(n)) == Some(n)
  {
    DecimalMagnitude(n);
    ParseIntUnsigned(NatToString(n), n);
  }

  lemma NegativeRoundTrip(n: nat)
    ensures ParseInt("-" + NatToString(n)) == Some(-(n as int))
  {
    var s := "-" + NatToString(n);
    assert s[1..] == NatToString(n);
    DecimalMagnitude(n);
    ParseIntNegative(s, n);
  }

  /** Reading back what `String(i)` wrote gives `i`. */
  lemma ParseIntRoundTrip(i: int)
    ensures ParseInt(IntToString(i)) == Some(i)
  {
    if i < 0 {
      var n: nat := -i;
      assert NatToString(n) == NatToString(-i);
      assert IntToString(i) == "-" + NatToString(n);
      NegativeRoundTrip(n);
    } else {
      NatRoundTrip(i);
    }
  }

  /** An interpolated `undefined` does not parse as a number. */
  lemma UndefinedIsNaN()
    ensures ParseInt(Interpolated(None)) == None
  {
    ParseIntNonNumeric("undefined");
  }

  /** Text that starts with neither white space, a sign nor a decimal digit reads as `NaN`. */
  lemma ParseIntNonNumeric(s: string)
    requires s != [] && !IsJsWhiteSpace(s[0]) && s[0] != '-' && s[0] != '+' && DigitValue(s[0]) >= 10
    ensures ParseInt(s) == None
  {
    assert TrimStart(s) == s;
    assert !StartsWith(s, "0x") && !StartsWith(s, "0X");
    assert DigitPrefix(s, 10) == [];
  }

  /** A template literal `${x}` of a value that may be `undefined`. */
  function Interpolated(x: Option<string>): string {
    if x.Some? then x.value else "undefined"
  }
}
