/**
 * The few pieces of Go's standard library that the modelled code relies on
 * for its string handling: `strings.Index`, `strings.Split` and `strings.Join`
 * with a one-character separator, and the `%d` verb of `fmt.Sprintf`.
 * Each comes with the inverse that shows it loses nothing.
 */
module Text {
  import opened Wrappers

  /** `strings.Index(s, string(c))`: the first position of `c`, or -1. */
  function IndexOf(s: string, c: char): (i: int)
    ensures -1 <= i < |s|
    ensures i < 0 ==> c !in s
    ensures 0 <= i ==> s[i] == c && c !in s[..i]
  {
    if |s| == 0 then -1
    else if s[0] == c then 0
    else
      var j := IndexOf(s[1..], c);
      if j < 0 then -1 else j + 1
  }

  /**
   * `strings.Split(s, string(sep))`: the pieces between the separators, in
   * order; a string without the separator is one piece, and "" gives [""].
   */
  function Split(s: string, sep: char): (parts: seq<string>)
    ensures |parts| >= 1
    ensures forall k :: 0 <= k < |parts| ==> sep !in parts[k]
    ensures sep !in s ==> parts == [s]
    decreases |s|
  {
    var i := IndexOf(s, sep);
    if i < 0 then [s]
    else
      var head, rest := s[..i], Split(s[i + 1..], sep);
      assert sep !in head;
      var parts := [head] + rest;
      assert forall k :: 1 <= k < |parts| ==> parts[k] == rest[k - 1];
      parts
  }

  /** `strings.Join(parts, sep)`. */
  function Join(parts: seq<string>, sep: string): string
  {
    if |parts| == 0 then ""
    else if |parts| == 1 then parts[0]
    else parts[0] + sep + Join(parts[1..], sep)
  }

  /** Joining the pieces of a split with the separator gives back the string. */
  lemma {:induction false} JoinSplit(s: string, sep: char)
    ensures Join(Split(s, sep), [sep]) == s
    decreases |s|
  {
    var i := IndexOf(s, sep);
    if 0 <= i {
      var head, rest := s[..i], s[i + 1..];
      assert s == head + [sep] + rest;
      SplitAtFirst(head, sep, rest);
      JoinSplit(rest, sep);
      JoinCons(head, Split(rest, sep), [sep]);
    }
  }

  lemma JoinCons(head: string, tail: seq<string>, sep: string)
    requires |tail| >= 1
    ensures Join([head] + tail, sep) == head + sep + Join(tail, sep)
  {
    assert ([head] + tail)[1..] == tail;
  }

  /** Splitting a join of separator-free pieces gives back the pieces. */
  lemma {:induction false} SplitJoin(parts: seq<string>, sep: char)
    requires |parts| >= 1
    requires forall k :: 0 <= k < |parts| ==> sep !in parts[k]
    ensures Split(Join(parts, [sep]), sep) == parts
  {
    if |parts| > 1 {
      var tail := Join(parts[1..], [sep]);
      assert Join(parts, [sep]) == parts[0] + [sep] + tail;
      SplitAtFirst(parts[0], sep, tail);
      SplitJoin(parts[1..], sep);
    }
  }

  /** Splitting at a first separator that follows `a` gives `a` and then the pieces of the rest. */
  lemma SplitAtFirst(a: string, c: char, b: string)
    requires c !in a
    ensures Split(a + [c] + b, c) == [a] + Split(b, c)
  {
    var s := a + [c] + b;
    PrefixIndex(a, c, b);
    assert s[..|a|] == a;
    assert s[|a| + 1..] == b;
  }

  /** The first separator of `a + [c] + b` is the one after `a` when `a` has none. */
  lemma {:induction false} PrefixIndex(a: string, c: char, b: string)
    requires c !in a
    ensures IndexOf(a + [c] + b, c) == |a|
  {
    if |a| > 0 {
      assert (a + [c] + b)[1..] == a[1..] + [c] + b;
      PrefixIndex(a[1..], c, b);
    } else {
      assert (a + [c] + b)[0] == c;
    }
  }

  predicate IsDigit(c: char)
  {
    '0' <= c <= '9'
  }

  function DigitChar(d: nat): (c: char)
    requires d < 10
    ensures IsDigit(c)
  {
    "0123456789"[d]
  }

  function DigitValue(c: char): (d: nat)
    requires IsDigit(c)
    ensures d < 10
    ensures DigitChar(d) == c
  {
    (c as int - '0' as int) as nat
  }

  predicate AllDigits(s: string)
  {
    forall k :: 0 <= k < |s| ==> IsDigit(s[k])
  }

  /** The decimal digits of a natural number, most significant first, without leading zeros. */
  function FormatNat(n: nat): (s: string)
    ensures |s| >= 1 && AllDigits(s)
    ensures |s| > 1 ==> s[0] != '0'
    decreases n
  {
    if n < 10 then [DigitChar(n)] else FormatNat(n / 10) + [DigitChar(n % 10)]
  }

  /** `fmt.Sprintf("%d", n)` for a Go integer: a minus sign, then the digits of |n|. */
  function FormatInt(n: int): (s: string)
    ensures |s| >= 1
    ensures ' ' !in s && '=' !in s
  {
    if n < 0 then "-" + FormatNat(-n) else FormatNat(n)
  }

  /** The value of a string of decimal digits. */
  function DigitsValue(s: string): nat
    requires AllDigits(s)
  {
    if |s| == 0 then 0 else DigitsValue(s[..|s| - 1]) * 10 + DigitValue(s[|s| - 1])
  }

  /** Reads back what `FormatInt` writes: an optional minus sign and one or more digits. */
  function ParseInt(s: string): Option<int>
  {
    if |s| >= 2 && s[0] == '-' && AllDigits(s[1..]) then Some(-(DigitsValue(s[1..]) as int))
    else if |s| >= 1 && AllDigits(s) then Some(DigitsValue(s))
    else None
  }

  lemma {:induction false} FormatNatValue(n: nat)
    ensures DigitsValue(FormatNat(n)) == n
    decreases n
  {
    if n >= 10 {
      var s := FormatNat(n);
      FormatNatValue(n / 10);
      assert s[..|s| - 1] == FormatNat(n / 10);
    }
  }

  /** Every integer printed with `%d` reads back as itself. */
  lemma FormatIntRoundTrip(n: int)
    ensures ParseInt(FormatInt(n)) == Some(n)
  {
    if n < 0 {
      var digits := FormatNat(-n);
      FormatNatValue(-n);
      NegativeParse(digits);
    } else {
      FormatNatValue(n);
      DigitsParse(FormatNat(n));
    }
  }

  lemma DigitsParse(digits: string)
    requires |digits| >= 1 && AllDigits(digits)
    ensures ParseInt(digits) == Some(DigitsValue(digits) as int)
  {
    assert IsDigit(digits[0]);
  }

  lemma NegativeParse(digits: string)
    requires |digits| >= 1 && AllDigits(digits)
    ensures ParseInt("-" + digits) == Some(-(DigitsValue(digits) as int))
  {
    assert ("-" + digits)[1..] == digits;
  }
}
