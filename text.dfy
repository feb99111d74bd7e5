/**
 * Text helpers for the status messages: substring search and a decimal
 * rendering of integers, which stands in for the timestamp format the
 * subscription object writes into its messages.
 */
module Text {

  /** True iff `w` occurs as a contiguous piece of `s` (Python's `w in s`). */
  function Occurs(w: string, s: string): (r: bool)
    ensures r ==> |w| <= |s|
    decreases |s|
  {
    w <= s || (|s| > 0 && Occurs(w, s[1..]))
  }

  /** `w` is the slice of `s` that starts at index `i`. */
  predicate OccursAt(w: string, s: string, i: int) {
    0 <= i <= |s| - |w| && s[i..i + |w|] == w
  }

  /** A slice of the tail of `s` is the slice of `s` one index further on. */
  lemma TailSlice(s: string, i: nat, n: nat)
    requires |s| > 0 && i + n <= |s| - 1
    ensures s[1..][i..i + n] == s[i + 1..i + 1 + n]
  {
    var a, b := s[1..][i..i + n], s[i + 1..i + 1 + n];
    assert forall k :: 0 <= k < n ==> a[k] == b[k];
  }

  /** `Occurs` finds exactly the slices of `s` that equal `w`. */
  lemma {:induction false} OccursAsSlice(w: string, s: string)
    ensures Occurs(w, s) <==> exists i :: OccursAt(w, s, i)
    decreases |s|
  {
    if w <= s {
      assert OccursAt(w, s, 0);
    } else if |s| > 0 {
      OccursAsSlice(w, s[1..]);
      if Occurs(w, s[1..]) {
        var i :| OccursAt(w, s[1..], i);
        TailSlice(s, i, |w|);
        assert OccursAt(w, s, i + 1);
      }
      if exists i :: OccursAt(w, s, i) {
        var i :| OccursAt(w, s, i);
        assert i != 0;
        TailSlice(s, i - 1, |w|);
        assert OccursAt(w, s[1..], i - 1);
      }
    }
  }

  /** A string occurs in any string that is built around it. */
  lemma {:induction false} OccursBetween(w: string, before: string, after: string)
    ensures Occurs(w, before + w + after)
    decreases |before|
  {
    if before == [] {
      assert before + w + after == w + after;
      assert w <= w + after;
    } else {
      assert (before + w + after)[1..] == before[1..] + w + after;
      OccursBetween(w, before[1..], after);
    }
  }

  /** A string that has a character `s` lacks does not occur in `s`. */
  lemma {:induction false} NotOccursWithout(w: string, j: nat, s: string)
    requires j < |w|
    requires w[j] !in s
    ensures !Occurs(w, s)
    decreases |s|
  {
    if j < |s| {
      assert s[j] in s;
    }
    if |s| > 0 {
      assert forall c :: c in s[1..] ==> c in s;
      NotOccursWithout(w, j, s[1..]);
    }
  }

  /**
   * A leading piece that does not contain the first character of `w`
   * cannot hold the start of an occurrence of `w`.
   */
  lemma {:induction false} SkipWithoutFirst(w: string, lead: string, rest: string)
    requires |w| > 0 && w[0] !in lead
    ensures Occurs(w, lead + rest) == Occurs(w, rest)
    decreases |lead|
  {
    if lead == [] {
      assert lead + rest == rest;
    } else {
      var s := lead + rest;
      assert s[0] == lead[0];
      assert !(w <= s);
      assert s[1..] == lead[1..] + rest;
      assert forall c :: c in lead[1..] ==> c in lead;
      SkipWithoutFirst(w, lead[1..], rest);
    }
  }

  /**
   * When the first character of `w` occurs in `a + b` only as the first
   * character of `b`, and the next one of `b` differs from that of `w`, `w`
   * does not occur.
   */
  lemma NotOccursPastMismatch(w: string, a: string, b: string)
    requires |w| > 1 && w[0] !in a
    requires |b| > 1 && b[1] != w[1] && w[0] !in b[1..]
    ensures !Occurs(w, a + b)
  {
    SkipWithoutFirst(w, a, b);
    NotOccursWithout(w, 0, b[1..]);
    assert !(w <= b);
  }

  predicate IsDigit(c: char) {
    '0' <= c <= '9'
  }

  /** Every character is a decimal digit or a minus sign. */
  predicate IsNumeral(s: string) {
    forall i :: 0 <= i < |s| ==> IsDigit(s[i]) || s[i] == '-'
  }

  function DigitChar(d: nat): (c: char)
    requires d < 10
    ensures IsDigit(c) && c as int - '0' as int == d
  {
    (d + '0' as int) as char
  }

  /** The decimal digits of `n`, most significant first, without leading zeros. */
  function NatDigits(n: nat): (r: string)
    ensures |r| > 0
    ensures forall i :: 0 <= i < |r| ==> IsDigit(r[i])
    ensures n >= 10 ==> r[0] != '0'
    decreases n
  {
    if n < 10 then [DigitChar(n)] else NatDigits(n / 10) + [DigitChar(n % 10)]
  }

  /** The value of a string of digits. */
  function DigitsValue(s: string): nat
    requires forall i :: 0 <= i < |s| ==> IsDigit(s[i])
  {
    if s == [] then 0
    else
      assert IsDigit(s[|s| - 1]);
      DigitsValue(s[..|s| - 1]) * 10 + (s[|s| - 1] as int - '0' as int)
  }

  lemma {:induction false} NatDigitsValue(n: nat)
    ensures DigitsValue(NatDigits(n)) == n
    decreases n
  {
    if n >= 10 {
      var r := NatDigits(n);
      assert r[..|r| - 1] == NatDigits(n / 10);
      NatDigitsValue(n / 10);
    }
  }

  /** An integer written in decimal, with a leading '-' when negative. */
  function Decimal(n: int): (r: string)
    ensures |r| > 0 && IsNumeral(r)
    ensures (r[0] == '-') == (n < 0)
  {
    if n < 0 then "-" + NatDigits(-n) else NatDigits(n)
  }

  /** Reads back what `Decimal` writes. */
  function ParseDecimal(s: string): int
    requires |s| > 0 && IsNumeral(s)
    requires forall i :: 0 < i < |s| ==> IsDigit(s[i])
  {
    if s[0] == '-' then 0 - DigitsValue(s[1..]) as int else DigitsValue(s)
  }

  /** Different integers are written differently: `Decimal` loses nothing. */
  lemma DecimalRoundTrip(n: int)
    ensures ParseDecimal(Decimal(n)) == n
  {
    if n < 0 {
      assert Decimal(n)[1..] == NatDigits(-n);
      NatDigitsValue(-n);
    } else {
      NatDigitsValue(n);
    }
  }
}
