/**
 * String helpers the adapters rely on: ASCII case mapping (strings.ToUpper and
 * strings.ToLower restricted to ASCII), the first/next occurrence of a
 * character, strings.Split and strings.Join on a one-character separator,
 * suffix and substring tests, and strconv.FormatInt / strconv.ParseInt in
 * base 10 with the 64-bit range.
 */
module Text {
  const MaxInt64: int := 0x7FFF_FFFF_FFFF_FFFF
  const MinInt64: int := -0x8000_0000_0000_0000

  const MinInt32: int := -0x8000_0000
  const MaxInt32: int := 0x7FFF_FFFF

  /** Go's int32(n): the value taken modulo 2^32 into the signed 32-bit range. */
  function ToInt32(n: int): (r: int)
    ensures MinInt32 <= r <= MaxInt32
    ensures (r - n) % 0x1_0000_0000 == 0
    ensures MinInt32 <= n <= MaxInt32 ==> r == n
  {
    (n - MinInt32) % 0x1_0000_0000 + MinInt32
  }

  /**
   * Go's integer `a / b` for a positive divisor: the quotient rounded toward
   * zero, so the remainder has the sign of `a` (Dafny's own `/` floors).
   */
  function Quo(a: int, b: int): (q: int)
    requires b > 0
    ensures 0 <= a ==> 0 <= a - q * b < b
    ensures a < 0 ==> -b < a - q * b <= 0
  {
    if a >= 0 then a / b else -((-a) / b)
  }

  predicate IsLowerLetter(c: char) { 'a' <= c <= 'z' }
  predicate IsUpperLetter(c: char) { 'A' <= c <= 'Z' }
  predicate IsLetter(c: char) { IsLowerLetter(c) || IsUpperLetter(c) }

  function UpperChar(c: char): char
  {
    if IsLowerLetter(c) then (c as int - 32) as char else c
  }

  function LowerChar(c: char): char
  {
    if IsUpperLetter(c) then (c as int + 32) as char else c
  }

  function Upper(s: string): (r: string)
    ensures |r| == |s|
    ensures forall i :: 0 <= i < |s| ==> r[i] == UpperChar(s[i])
  {
    if s == [] then [] else [UpperChar(s[0])] + Upper(s[1..])
  }

  function Lower(s: string): (r: string)
    ensures |r| == |s|
    ensures forall i :: 0 <= i < |s| ==> r[i] == LowerChar(s[i])
  {
    if s == [] then [] else [LowerChar(s[0])] + Lower(s[1..])
  }

  /** The case an exchange's request format asks for: upper when `up`, else lower. */
  function Cased(s: string, up: bool): string
  {
    if up then Upper(s) else Lower(s)
  }

  /** Upper-casing an upper-cased string changes nothing. */
  lemma UpperIdempotent(s: string)
    ensures Upper(Upper(s)) == Upper(s)
  {
    assert forall i :: 0 <= i < |s| ==> UpperChar(UpperChar(s[i])) == UpperChar(s[i]);
  }

  /** Lower-casing forgets an earlier upper-casing. */
  lemma LowerOfUpper(s: string)
    ensures Lower(Upper(s)) == Lower(s)
  {
    assert forall i :: 0 <= i < |s| ==> LowerChar(UpperChar(s[i])) == LowerChar(s[i]);
  }

  /** Case mapping neither adds nor removes a character that is not a letter. */
  lemma CasedKeepsNonLetter(s: string, up: bool, c: char)
    requires !IsLetter(c)
    ensures c in Cased(s, up) <==> c in s
  {
    var r := Cased(s, up);
    assert forall i :: 0 <= i < |s| ==> (r[i] == c <==> s[i] == c);
  }

  lemma CasedAppend(a: string, b: string, up: bool)
    ensures Cased(a + b, up) == Cased(a, up) + Cased(b, up)
  {
    if up { UpperAppend(a, b); } else { LowerAppend(a, b); }
  }

  lemma UpperAppend(a: string, b: string)
    ensures Upper(a + b) == Upper(a) + Upper(b)
  {
    var l, r := Upper(a + b), Upper(a) + Upper(b);
    forall i | 0 <= i < |a| ensures l[i] == r[i] {
      assert (a + b)[i] == a[i];
    }
    forall i | |a| <= i < |l| ensures l[i] == r[i] {
      assert (a + b)[i] == b[i - |a|];
    }
  }

  lemma LowerAppend(a: string, b: string)
    ensures Lower(a + b) == Lower(a) + Lower(b)
  {
    var l, r := Lower(a + b), Lower(a) + Lower(b);
    forall i | 0 <= i < |a| ensures l[i] == r[i] {
      assert (a + b)[i] == a[i];
    }
    forall i | |a| <= i < |l| ensures l[i] == r[i] {
      assert (a + b)[i] == b[i - |a|];
    }
  }

  /** The position of the first `c` in `s`, or `|s|` when there is none. */
  function IndexOf(s: string, c: char): (k: nat)
    ensures k <= |s|
    ensures k < |s| ==> s[k] == c
    ensures forall i :: 0 <= i < k ==> s[i] != c
  {
    if s == [] then 0 else if s[0] == c then 0 else 1 + IndexOf(s[1..], c)
  }

  lemma {:induction false} IndexOfAbsent(s: string, c: char)
    requires c !in s
    ensures IndexOf(s, c) == |s|
  {
    if s != [] {
      assert s[0] != c;
      IndexOfAbsent(s[1..], c);
    }
  }

  lemma {:induction false} IndexOfJoined(a: string, c: char, b: string)
    requires c !in a
    ensures IndexOf(a + [c] + b, c) == |a|
  {
    if a == [] {
      assert (a + [c] + b)[0] == c;
    } else {
      assert (a + [c] + b)[0] == a[0];
      assert (a + [c] + b)[1..] == a[1..] + [c] + b;
      IndexOfJoined(a[1..], c, b);
    }
  }

  /** The text before the first `c` (element 0 of strings.Split(s, c)). */
  function Before(s: string, c: char): (r: string)
    ensures c !in r
  {
    s[..IndexOf(s, c)]
  }

  /** The text after the first `c`, or "" when there is none. */
  function After(s: string, c: char): string
  {
    var k := IndexOf(s, c);
    if k < |s| then s[k + 1..] else ""
  }

  /** The text before the first `c` of `a + [c] + b` is `a` when `a` holds no `c`. */
  lemma BeforeJoined(a: string, c: char, b: string)
    requires c !in a
    ensures Before(a + [c] + b, c) == a
  {
    IndexOfJoined(a, c, b);
    assert (a + [c] + b)[..|a|] == a;
  }

  /** The text after the first `c` of `a + [c] + b` is `b` when `a` holds no `c`. */
  lemma AfterJoined(a: string, c: char, b: string)
    requires c !in a
    ensures After(a + [c] + b, c) == b
  {
    IndexOfJoined(a, c, b);
    assert (a + [c] + b)[|a| + 1..] == b;
  }

  /** strings.Split on a one-character separator: always at least one field. */
  function Split(s: string, c: char): (r: seq<string>)
    ensures |r| >= 1
    ensures r[0] == Before(s, c)
    ensures forall i :: 0 <= i < |r| ==> c !in r[i]
    decreases |s|
  {
    var k := IndexOf(s, c);
    if k == |s| then [s]
    else [s[..k]] + Split(s[k + 1..], c)
  }

  /** strings.Join with separator `c`. */
  function Join(parts: seq<string>, c: char): string
  {
    if parts == [] then ""
    else if |parts| == 1 then parts[0]
    else parts[0] + [c] + Join(parts[1..], c)
  }

  /** Joining and splitting again gives the parts back when no part holds the separator. */
  lemma {:induction false} SplitJoin(parts: seq<string>, c: char)
    requires |parts| >= 1
    requires forall i :: 0 <= i < |parts| ==> c !in parts[i]
    ensures Split(Join(parts, c), c) == parts
  {
    if |parts| == 1 {
      IndexOfAbsent(parts[0], c);
    } else {
      var rest := Join(parts[1..], c);
      var s := parts[0] + [c] + rest;
      IndexOfJoined(parts[0], c, rest);
      assert s[..|parts[0]|] == parts[0];
      assert s[|parts[0]| + 1..] == rest;
      SplitJoin(parts[1..], c);
    }
  }

  predicate HasSuffix(s: string, suffix: string)
  {
    |suffix| <= |s| && s[|s| - |suffix|..] == suffix
  }

  predicate IsDigit(c: char) { '0' <= c <= '9' }

  predicate AllDigits(s: string)
  {
    forall i :: 0 <= i < |s| ==> IsDigit(s[i])
  }

  function DigitChar(d: nat): char
    requires d < 10
  {
    ('0' as int + d) as char
  }

  function DigitsValue(s: string): nat
    requires AllDigits(s)
  {
    if s == [] then 0 else DigitsValue(s[..|s| - 1]) * 10 + (s[|s| - 1] as int - '0' as int)
  }

  /** The decimal digits of `n`, most significant first, no leading zero. */
  function NatToDecimal(n: nat): (r: string)
    ensures |r| >= 1 && AllDigits(r)
  {
    if n < 10 then [DigitChar(n)] else NatToDecimal(n / 10) + [DigitChar(n % 10)]
  }

  lemma {:induction false} DecimalValue(n: nat)
    ensures DigitsValue(NatToDecimal(n)) == n
  {
    var s := NatToDecimal(n);
    if n >= 10 {
      assert s[..|s| - 1] == NatToDecimal(n / 10);
      DecimalValue(n / 10);
    }
  }

  /** strconv.FormatInt(n, 10). */
  function FormatInt(n: int): (r: string)
    ensures |r| >= 1
  {
    if n < 0 then "-" + NatToDecimal(-n) else NatToDecimal(n)
  }

  /** The outcome of strconv.ParseInt(s, 10, 64): the value it returns and whether its error is nil. */
  datatype Parsed = Parsed(value: int, ok: bool)

  /** strconv's syntax error: after an optional "+" or "-", no digits, or a character that is not a digit. */
  predicate IsSyntaxError(s: string)
  {
    var body := if s != [] && (s[0] == '-' || s[0] == '+') then s[1..] else s;
    body == [] || !AllDigits(body)
  }

  /**
   * strconv.ParseInt(s, 10, 64): an optional sign and at least one decimal digit.
   * A syntax error returns 0; a value outside the 64-bit range returns the
   * nearest bound; both come with a non-nil error.
   */
  function ParseInt(s: string): (r: Parsed)
    ensures r.ok ==> MinInt64 <= r.value <= MaxInt64
    ensures MinInt64 <= r.value <= MaxInt64
    ensures !r.ok && (s == [] || !AllDigits(s[1..])) ==> r.value == 0
    ensures IsSyntaxError(s) <==> !r.ok && r.value == 0
    ensures !IsSyntaxError(s) && !r.ok ==> r.value == MinInt64 || r.value == MaxInt64
  {
    if s == [] then Parsed(0, false)
    else
      var signed := s[0] == '-' || s[0] == '+';
      var body := if signed then s[1..] else s;
      if body == [] || !AllDigits(body) then Parsed(0, false)
      else
        var v := if s[0] == '-' then -(DigitsValue(body) as int) else DigitsValue(body);
        if v > MaxInt64 then Parsed(MaxInt64, false)
        else if v < MinInt64 then Parsed(MinInt64, false)
        else Parsed(v, true)
  }

  /** Formatting an int64 and parsing the text back gives the same value without error. */
  lemma ParseFormat(n: int)
    requires MinInt64 <= n <= MaxInt64
    ensures ParseInt(FormatInt(n)) == Parsed(n, true)
  {
    var s := FormatInt(n);
    if n < 0 {
      var d := NatToDecimal(-n);
      assert s[0] == '-' && s[1..] == d;
      DecimalValue(-n);
      assert -(DigitsValue(d) as int) == n;
    } else {
      var d := NatToDecimal(n);
      assert s == d && IsDigit(s[0]);
      DecimalValue(n);
    }
  }

  /** A formatted integer holds no character other than digits and a leading '-'. */
  lemma FormatIntChars(n: int, c: char)
    requires !IsDigit(c) && c != '-'
    ensures c !in FormatInt(n)
  {
    var s := FormatInt(n);
    forall i | 0 <= i < |s| ensures s[i] != c {
      if n < 0 && i > 0 { assert s[i] == NatToDecimal(-n)[i - 1]; }
    }
  }
}
