/**
 * The currency-pair value the adapters exchange with the rest of the system.
 * The pair package itself is not part of this model; its behaviour is fixed
 * here by explicit definitions:
 *   - Display(d, up) is first + d + second with the case applied to all of it;
 *   - Invert swaps the two currencies;
 *   - FormatPair(d, up) applies the case to both currencies;
 *   - NewCurrencyPairDelimiter(s, d) takes the field before the first d as the
 *     first currency and the field after it as the second.
 * A pair here carries no delimiter of its own.
 */
module Pairs {
  import opened Text

  datatype Pair = Pair(first: string, second: string)

  /** The zero value pair.CurrencyPair{}, what a failed conversion leaves behind. */
  const NoPair: Pair := Pair("", "")

  function Display(p: Pair, delimiter: string, up: bool): string
  {
    Cased(p.first + delimiter + p.second, up)
  }

  function Invert(p: Pair): Pair
  {
    Pair(p.second, p.first)
  }

  function FormatPair(p: Pair, up: bool): Pair
  {
    Pair(Cased(p.first, up), Cased(p.second, up))
  }

  /** NewCurrencyPairDelimiter on a one-character delimiter. */
  function FromDelimited(s: string, d: char): Pair
  {
    Pair(Before(s, d), Before(After(s, d), d))
  }

  /** p.Pair().String(): the currencies side by side (a pair carries no delimiter here). */
  function PairText(p: Pair): string
  {
    p.first + p.second
  }

  /** Neither currency holds the character `d`. */
  predicate FreeOf(p: Pair, d: char)
  {
    d !in p.first && d !in p.second
  }

  /** Both currencies are already in upper case. */
  predicate IsUpperPair(p: Pair)
  {
    Upper(p.first) == p.first && Upper(p.second) == p.second
  }

  lemma FormatPairUpper(p: Pair)
    requires IsUpperPair(p)
    ensures FormatPair(p, true) == p
  {
  }

  /** Display with a one-character, non-letter delimiter is the two cased currencies around it. */
  lemma DisplayParts(p: Pair, d: char, up: bool)
    requires !IsLetter(d)
    ensures Display(p, [d], up) == Cased(p.first, up) + [d] + Cased(p.second, up)
  {
    CasedAppend(p.first + [d], p.second, up);
    CasedAppend(p.first, [d], up);
  }

  /** Displayed with no delimiter, a pair is its two cased currencies side by side. */
  lemma DisplayJoined(p: Pair, up: bool)
    ensures Display(p, "", up) == Cased(p.first, up) + Cased(p.second, up)
  {
    assert p.first + "" + p.second == p.first + p.second;
    CasedAppend(p.first, p.second, up);
  }

  /** Splitting a displayed pair at its delimiter recovers the pair, in the display's case. */
  lemma {:induction false} SplitDisplay(p: Pair, d: char, up: bool)
    requires !IsLetter(d) && FreeOf(p, d)
    ensures FromDelimited(Display(p, [d], up), d) == FormatPair(p, up)
  {
    var a, b := Cased(p.first, up), Cased(p.second, up);
    DisplayParts(p, d, up);
    CasedKeepsNonLetter(p.first, up, d);
    CasedKeepsNonLetter(p.second, up, d);
    var s := a + [d] + b;
    IndexOfJoined(a, d, b);
    assert s[..|a|] == a;
    assert s[|a| + 1..] == b;
    IndexOfAbsent(b, d);
  }

  /** A symbol with exactly one delimiter is the display of the pair split from it. */
  lemma {:induction false} DisplaySplit(a: string, b: string, d: char, up: bool)
    requires !IsLetter(d) && d !in a && d !in b
    ensures Display(FromDelimited(a + [d] + b, d), [d], up) == Cased(a + [d] + b, up)
  {
    var s := a + [d] + b;
    IndexOfJoined(a, d, b);
    assert s[..|a|] == a;
    assert s[|a| + 1..] == b;
    IndexOfAbsent(b, d);
    assert FromDelimited(s, d) == Pair(a, b);
  }

  /** Two pairs free of the delimiter with the same display are the same pair up to case. */
  lemma {:induction false} DisplayInjective(p: Pair, q: Pair, d: char, up: bool)
    requires !IsLetter(d) && FreeOf(p, d) && FreeOf(q, d)
    requires Display(p, [d], up) == Display(q, [d], up)
    ensures FormatPair(p, up) == FormatPair(q, up)
  {
    SplitDisplay(p, d, up);
    SplitDisplay(q, d, up);
  }

  function InvertEach(pairs: seq<Pair>): (r: seq<Pair>)
    ensures |r| == |pairs|
    ensures forall i :: 0 <= i < |pairs| ==> r[i] == Invert(pairs[i])
  {
    if pairs == [] then [] else [Invert(pairs[0])] + InvertEach(pairs[1..])
  }

  /** Inverting every pair twice restores the list. */
  lemma InvertEachTwice(pairs: seq<Pair>)
    ensures InvertEach(InvertEach(pairs)) == pairs
  {
  }

  /** The loop that rewrites `pairs[i] = pairs[i].Invert()` for every index. */
  method InvertAll(pairs: array<Pair>)
    modifies pairs
    ensures pairs[..] == InvertEach(old(pairs[..]))
  {
    var i := 0;
    while i < pairs.Length
      invariant 0 <= i <= pairs.Length
      invariant forall k :: 0 <= k < i ==> pairs[k] == Invert(old(pairs[k]))
      invariant forall k :: i <= k < pairs.Length ==> pairs[k] == old(pairs[k])
    {
      pairs[i] := Invert(pairs[i]);
      i := i + 1;
    }
  }
}
