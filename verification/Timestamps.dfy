/** The order of ISO 8601 timestamps that every time bound of the contract rests on.

    A timestamp is the instant of its whole second, as the platform parses it, and the fraction
    digits as written, however many there are. */
module Timestamps {

  /** The wire format only admits decimal digits. */
  type Digit = d: nat | d < 10

  type Fraction = seq<Digit>

  datatype Timestamp = Timestamp(second: int, fraction: Fraction)

  function Zeros(n: nat): (r: Fraction)
    ensures |r| == n
  {
    if n == 0 then [] else [0] + Zeros(n - 1)
  }

  function PadEnd(f: Fraction, width: nat): (r: Fraction)
    requires |f| <= width
    ensures |r| == width
  {
    f + Zeros(width - |f|)
  }

  /** Comparison of digit strings of one length: the first difference decides. */
  function CompareDigits(l: Fraction, r: Fraction): int
    requires |l| == |r|
  {
    if l == [] then 0
    else if l[0] != r[0] then (if l[0] < r[0] then -1 else 1)
    else CompareDigits(l[1..], r[1..])
  }

  function Compare(l: Timestamp, r: Timestamp): int {
    if l.second != r.second then (if l.second < r.second then -1 else 1)
    else
      var width := if |l.fraction| < |r.fraction| then |r.fraction| else |l.fraction|;
      CompareDigits(PadEnd(l.fraction, width), PadEnd(r.fraction, width))
  }

  predicate NotBefore(t: Timestamp, bound: Timestamp) {
    Compare(t, bound) >= 0
  }

  // The instant a timestamp denotes.

  function FractionValue(f: Fraction): real {
    if f == [] then 0.0 else (f[0] as real + FractionValue(f[1..])) / 10.0
  }

  function Instant(t: Timestamp): real {
    t.second as real + FractionValue(t.fraction)
  }

  lemma {:induction false} FractionBounds(f: Fraction)
    ensures 0.0 <= FractionValue(f) < 1.0
  {
    if f != [] {
      FractionBounds(f[1..]);
    }
  }

  lemma {:induction false} ZerosAreZero(n: nat)
    ensures FractionValue(Zeros(n)) == 0.0
  {
    if n > 0 {
      ZerosAreZero(n - 1);
      assert Zeros(n)[1..] == Zeros(n - 1);
    }
  }

  lemma {:induction false} ZerosAddNothing(f: Fraction, n: nat)
    ensures FractionValue(f + Zeros(n)) == FractionValue(f)
  {
    ZerosAreZero(n);
    if f == [] {
      assert f + Zeros(n) == Zeros(n);
    } else {
      assert (f + Zeros(n))[1..] == f[1..] + Zeros(n);
      ZerosAddNothing(f[1..], n);
    }
  }

  lemma {:induction false} DigitsCompareAsFractions(l: Fraction, r: Fraction)
    requires |l| == |r|
    ensures CompareDigits(l, r) < 0 <==> FractionValue(l) < FractionValue(r)
    ensures CompareDigits(l, r) == 0 <==> FractionValue(l) == FractionValue(r)
  {
    if l != [] {
      FractionBounds(l[1..]);
      FractionBounds(r[1..]);
      DigitsCompareAsFractions(l[1..], r[1..]);
    }
  }

  /** Timestamps compare as the instants they denote, whatever their number of digits; so the
      comparison is a total order up to the instant. */
  lemma CompareIsChronological(l: Timestamp, r: Timestamp)
    ensures Compare(l, r) < 0 <==> Instant(l) < Instant(r)
    ensures Compare(l, r) == 0 <==> Instant(l) == Instant(r)
    ensures Compare(l, r) == -Compare(r, l)
  {
    var width := if |l.fraction| < |r.fraction| then |r.fraction| else |l.fraction|;
    FractionBounds(l.fraction);
    FractionBounds(r.fraction);
    ZerosAddNothing(l.fraction, width - |l.fraction|);
    ZerosAddNothing(r.fraction, width - |r.fraction|);
    if l.second == r.second {
      DigitsCompareAsFractions(PadEnd(l.fraction, width), PadEnd(r.fraction, width));
      DigitsAntisymmetric(PadEnd(l.fraction, width), PadEnd(r.fraction, width));
    }
  }

  lemma {:induction false} DigitsAntisymmetric(l: Fraction, r: Fraction)
    requires |l| == |r|
    ensures CompareDigits(l, r) == -CompareDigits(r, l)
  {
    if l != [] {
      DigitsAntisymmetric(l[1..], r[1..]);
    }
  }

  lemma NotBeforeItself(t: Timestamp)
    ensures Compare(t, t) == 0
  {
    CompareIsChronological(t, t);
  }

  /** Time bounds chain. */
  lemma NotBeforeIsTransitive(a: Timestamp, b: Timestamp, c: Timestamp)
    requires NotBefore(a, b) && NotBefore(b, c)
    ensures NotBefore(a, c)
  {
    CompareIsChronological(a, b);
    CompareIsChronological(b, c);
    CompareIsChronological(a, c);
  }
}
