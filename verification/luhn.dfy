/**
 The card check of app/redaction.py (lines 70-81): the modulus-10 formula of
 ISO/IEC 7812-1 Annex B over the digits of a text.
 */
module Luhn {

  ghost predicate AreDigits(ds: seq<int>) { forall i :: 0 <= i < |ds| ==> 0 <= ds[i] <= 9 }

  predicate IsDigit(c: char) { '0' <= c <= '9' }

  /** `[int(c) for c in value if c.isdigit()]` */
  function Digits(text: string): (r: seq<int>)
    ensures AreDigits(r)
  {
    if text == [] then []
    else (if IsDigit(text[0]) then [text[0] as int - '0' as int] else []) + Digits(text[1..])
  }

  function Doubled(d: int): int { if 2 * d > 9 then 2 * d - 9 else 2 * d }

  /** What digit `d` adds to the total at position `fromRight`. */
  function Term(fromRight: nat, d: int): int { if fromRight % 2 == 1 then Doubled(d) else d }

  function Total(ds: seq<int>): int {
    if ds == [] then 0 else Term(|ds| - 1, ds[0]) + Total(ds[1..])
  }

  predicate ValidDigits(ds: seq<int>) { 13 <= |ds| <= 19 && Total(ds) % 10 == 0 }

  lemma TotalFrom(ds: seq<int>, at: nat)
    requires at < |ds|
    ensures Total(ds[at..]) == Term(|ds| - 1 - at, ds[at]) + Total(ds[at + 1..])
  {
    assert ds[at..][1..] == ds[at + 1..];
  }

  method IsLuhnValid(value: string) returns (valid: bool)
    ensures valid == ValidDigits(Digits(value))
  {
    var digits := Digits(value);
    if !(13 <= |digits| <= 19) { return false; }
    var total := 0;
    var index := 0;
    while index < |digits|
      invariant index <= |digits|
      invariant total == Total(digits[|digits| - index..])
    {
      var digit := digits[|digits| - 1 - index];
      TotalFrom(digits, |digits| - 1 - index);
      if index % 2 != 0 {
        digit := digit * 2;
        if digit > 9 { digit := digit - 9; }
      }
      total := total + digit;
      index := index + 1;
    }
    assert digits[0..] == digits;
    valid := total % 10 == 0;
  }

  // ---------- sums ----------

  lemma {:induction false} ReplaceDigit(ds: seq<int>, i: nat, d: int)
    requires i < |ds|
    ensures Total(ds[i := d]) - Total(ds) == Term(|ds| - 1 - i, d) - Term(|ds| - 1 - i, ds[i])
  {
    if i == 0 {
      assert ds[0 := d][1..] == ds[1..];
    } else {
      assert ds[i := d][1..] == ds[1..][i - 1 := d];
      ReplaceDigit(ds[1..], i - 1, d);
    }
  }

  // ---------- what the total is ----------

  /** `n` digits, all zero but `d` at position `k` from the right. */
  function OneDigit(n: nat, k: nat, d: int): seq<int>
    requires k < n
  {
    seq(n, _ => 0)[n - 1 - k := d]
  }

  lemma {:induction false} ZerosAddUp(n: nat)
    ensures Total(seq(n, _ => 0)) == 0
  {
    if n > 0 {
      assert seq(n, _ => 0)[1..] == seq(n - 1, _ => 0);
      ZerosAddUp(n - 1);
    }
  }

  /** All zeros are valid at each admitted length, and at no other. */
  lemma ZerosAreValidIff(n: nat)
    ensures ValidDigits(seq(n, _ => 0)) <==> 13 <= n <= 19
  {
    ZerosAddUp(n);
  }

  /** Alone, a digit counts once, and on every second place from the right, beginning
      with the last but one, it counts as the digits of its double. */
  lemma OneDigitTotal(n: nat, k: nat, d: int)
    requires k < n && 0 <= d <= 9
    ensures Total(OneDigit(n, k, d)) == if k % 2 == 0 then d else (2 * d) / 10 + (2 * d) % 10
  {
    ZerosAddUp(n);
    ReplaceDigit(seq(n, _ => 0), n - 1 - k, d);
  }

  /** Within a number each digit counts as it does alone, whatever the others are. */
  lemma DigitsCountAlone(ds: seq<int>, k: nat, d: int)
    requires k < |ds|
    ensures Total(ds[|ds| - 1 - k := d]) - Total(ds)
         == Total(OneDigit(|ds|, k, d)) - Total(OneDigit(|ds|, k, ds[|ds| - 1 - k]))
  {
    var n := |ds|;
    ReplaceDigit(ds, n - 1 - k, d);
    ReplaceDigit(seq(n, _ => 0), n - 1 - k, d);
    ReplaceDigit(seq(n, _ => 0), n - 1 - k, ds[n - 1 - k]);
  }

  /** Both digit maps are one-to-one modulo 10. */
  lemma TermsDiffer(fromRight: nat, a: int, b: int)
    requires 0 <= a <= 9 && 0 <= b <= 9 && a != b
    ensures 0 <= Term(fromRight, a) <= 9 && 0 <= Term(fromRight, b) <= 9
    ensures Term(fromRight, a) != Term(fromRight, b)
  {}

  lemma SmallChange(t: int, u: int)
    requires t % 10 == 0 && t != u && -9 <= u - t <= 9
    ensures u % 10 != 0
  {}

  lemma MultipleOfTenChange(t: int, u: int)
    requires t % 10 == 0
    ensures u % 10 == 0 <==> (u - t) % 10 == 0
  {}

  // ---------- error detection ----------

  /** A valid number with one digit changed is never valid. */
  lemma OneWrongDigitIsDetected(ds: seq<int>, i: nat, d: int)
    requires AreDigits(ds) && ValidDigits(ds) && i < |ds| && 0 <= d <= 9 && d != ds[i]
    ensures !ValidDigits(ds[i := d])
  {
    ReplaceDigit(ds, i, d);
    TermsDiffer(|ds| - 1 - i, d, ds[i]);
    SmallChange(Total(ds), Total(ds[i := d]));
  }

  function SwapNext(ds: seq<int>, i: nat): seq<int>
    requires i + 1 < |ds|
  {
    ds[i := ds[i + 1]][i + 1 := ds[i]]
  }

  lemma ReplaceNext(step: seq<int>, ds: seq<int>, i: nat)
    requires i + 1 < |ds| && step == ds[i := ds[i + 1]]
    ensures Total(SwapNext(ds, i)) - Total(step)
         == Term(|ds| - 2 - i, ds[i]) - Term(|ds| - 2 - i, ds[i + 1])
  {
    ReplaceDigit(step, i + 1, ds[i]);
  }

  lemma SwapDifference(ds: seq<int>, i: nat)
    requires i + 1 < |ds|
    ensures var k := |ds| - 2 - i;
      Total(SwapNext(ds, i)) - Total(ds)
      == Term(k + 1, ds[i + 1]) - Term(k + 1, ds[i]) + Term(k, ds[i]) - Term(k, ds[i + 1])
  {
    ReplaceDigit(ds, i, ds[i + 1]);
    ReplaceNext(ds[i := ds[i + 1]], ds, i);
  }

  /** One of two neighbours is doubled, before and after the swap. */
  lemma NeighbourTerms(k: nat, a: int, b: int)
    ensures var change := Term(k + 1, b) - Term(k + 1, a) + Term(k, a) - Term(k, b);
      change == (Doubled(b) - b) - (Doubled(a) - a) || change == (Doubled(a) - a) - (Doubled(b) - b)
  {}

  /** Doubling adds d or d - 9: two digits add the same modulo 10 only if equal or
      0 and 9. */
  lemma SwapChange(a: int, b: int, change: int)
    requires 0 <= a <= 9 && 0 <= b <= 9
    requires change == (Doubled(b) - b) - (Doubled(a) - a) || change == (Doubled(a) - a) - (Doubled(b) - b)
    ensures change % 10 == 0 <==> a == b || {a, b} == {0, 9}
  {
    if (a == 0 && b == 9) || (a == 9 && b == 0) { assert {a, b} == {0, 9}; }
    if {a, b} == {0, 9} { assert 0 in {a, b} && 9 in {a, b} && a in {0, 9} && b in {0, 9}; }
  }

  /** A valid number with two neighbouring digits swapped stays valid exactly when
      they are equal or are 0 and 9. */
  lemma SwapsAreDetectedExceptZeroNine(ds: seq<int>, i: nat)
    requires AreDigits(ds) && ValidDigits(ds) && i + 1 < |ds|
    ensures ValidDigits(SwapNext(ds, i)) <==> ds[i] == ds[i + 1] || {ds[i], ds[i + 1]} == {0, 9}
  {
    SwapDifference(ds, i);
    var a, b, k := ds[i], ds[i + 1], |ds| - 2 - i;
    var change := Total(SwapNext(ds, i)) - Total(ds);
    NeighbourTerms(k, a, b);
    SwapChange(a, b, change);
    MultipleOfTenChange(Total(ds), Total(SwapNext(ds, i)));
  }

  /** Every prefix of 12 to 18 digits is completed by exactly one check digit. */
  lemma ExactlyOneCheckDigit(prefix: seq<int>) returns (check: int)
    requires AreDigits(prefix) && 12 <= |prefix| <= 18
    ensures 0 <= check <= 9
    ensures forall d :: 0 <= d <= 9 ==> (ValidDigits(prefix + [d]) <==> d == check)
  {
    var base := Total(prefix + [0]);
    check := (10 - base % 10) % 10;
    forall d | 0 <= d <= 9 ensures ValidDigits(prefix + [d]) <==> d == check {
      assert (prefix + [0])[|prefix| := d] == prefix + [d];
      ReplaceDigit(prefix + [0], |prefix|, d);
      assert Total(prefix + [d]) == base + d;
    }
  }

  // ---------- only the digits matter ----------

  lemma {:induction false} DigitsConcat(a: string, b: string)
    ensures Digits(a + b) == Digits(a) + Digits(b)
  {
    if a == [] {
      assert a + b == b;
    } else {
      assert (a + b)[1..] == a[1..] + b;
      DigitsConcat(a[1..], b);
    }
  }

  lemma {:induction false} NoDigits(text: string)
    requires forall i :: 0 <= i < |text| ==> !IsDigit(text[i])
    ensures Digits(text) == []
  {
    if text != [] { NoDigits(text[1..]); }
  }

  /** Inserting a separator anywhere changes neither the digits nor the verdict. */
  lemma SeparatorsAreIgnored(a: string, separator: string, b: string)
    requires forall i :: 0 <= i < |separator| ==> !IsDigit(separator[i])
    ensures Digits(a + separator + b) == Digits(a + b)
  {
    NoDigits(separator);
    DigitsConcat(a + separator, b);
    DigitsConcat(a, separator);
    DigitsConcat(a, b);
  }
}
