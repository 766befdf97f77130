/**
 * Pitch arithmetic shared by tone bases and scales: the conversion between an
 * interval in cents and a frequency ratio, and the sum and product of a
 * sequence of reals.
 */
module Pitch {

  /**
   * The conversion between cents and frequency ratios: `ratio(c)` stands for
   * 2^(c/1200) and `cents(f)` for 1200 * log2(f). Dafny's reals have no
   * exponential or logarithm, so the pair is passed around as a value and
   * every property that depends on it asks for `Lawful()`.
   */
  datatype Conversion = Conversion(ratio: real -> real, cents: real -> real)
  {
    /** The laws of 2^(c/1200) and of its inverse on the positive reals. */
    ghost predicate Lawful()
    {
      && (forall c :: ratio(c) > 0.0)
      && ratio(0.0) == 1.0
      && ratio(1200.0) == 2.0
      && (forall a, b {:trigger ratio(Plus(a, b))} :: ratio(Plus(a, b)) == ratio(a) * ratio(b))
      && (forall c {:trigger cents(ratio(c))} :: cents(ratio(c)) == c)
      && (forall f {:trigger ratio(cents(f))} :: f > 0.0 ==> ratio(cents(f)) == f)
    }
  }

  /**
   * The sum of two intervals. The additive law of a conversion is stated on
   * this term so that the solver applies it only where `RatioOfSum` asks.
   */
  function Plus(a: real, b: real): real
  {
    a + b
  }

  /** The ratio of a sum of intervals is the product of their ratios. */
  lemma RatioOfSum(conv: Conversion, a: real, b: real)
    requires conv.Lawful()
    ensures conv.ratio(a + b) == conv.ratio(a) * conv.ratio(b)
  {
    assert conv.ratio(Plus(a, b)) == conv.ratio(a) * conv.ratio(b);
  }

  /** The sum of a sequence, 0 for the empty one. */
  function Sum(s: seq<real>): real
  {
    if s == [] then 0.0 else s[0] + Sum(s[1..])
  }

  /** The product of a sequence, 1 for the empty one. */
  function Product(s: seq<real>): real
  {
    if s == [] then 1.0 else s[0] * Product(s[1..])
  }

  /** Appending an element adds it to the sum. */
  lemma {:induction false} SumAppend(s: seq<real>, x: real)
    ensures Sum(s + [x]) == Sum(s) + x
  {
    if s != [] {
      assert (s + [x])[1..] == s[1..] + [x];
      SumAppend(s[1..], x);
    }
  }

  /** Appending an element multiplies the product by it. */
  lemma {:induction false} ProductAppend(s: seq<real>, x: real)
    ensures Product(s + [x]) == Product(s) * x
  {
    if s != [] {
      assert (s + [x])[1..] == s[1..] + [x];
      ProductAppend(s[1..], x);
    }
  }

  /** Every element of `s` is positive. */
  predicate AllPositive(s: seq<real>)
  {
    forall i :: 0 <= i < |s| ==> s[i] > 0.0
  }

  /** No element of `s` is zero. */
  predicate AllNonZero(s: seq<real>)
  {
    forall i :: 0 <= i < |s| ==> s[i] != 0.0
  }

  /** Each longer prefix multiplies the previous prefix's product by its last element. */
  lemma ProductOfPrefixes(s: seq<real>)
    ensures forall i {:trigger s[i]} :: 0 <= i < |s| ==> Product(s[..i + 1]) == Product(s[..i]) * s[i]
  {
    forall i | 0 <= i < |s|
      ensures Product(s[..i + 1]) == Product(s[..i]) * s[i]
    {
      assert s[..i + 1] == s[..i] + [s[i]];
      ProductAppend(s[..i], s[i]);
    }
  }

  /** A product of non-zero factors is non-zero. */
  lemma {:induction false} ProductNonZero(s: seq<real>)
    requires AllNonZero(s)
    ensures Product(s) != 0.0
  {
    if s != [] {
      ProductNonZero(s[1..]);
    }
  }

  /** A product of positive factors is positive. */
  lemma {:induction false} ProductPositive(s: seq<real>)
    requires AllPositive(s)
    ensures Product(s) > 0.0
  {
    if s != [] {
      ProductPositive(s[1..]);
    }
  }

  /** A sequence whose every element is x sums to its length times x. */
  lemma {:induction false} SumOfConstant(s: seq<real>, x: real)
    requires forall i :: 0 <= i < |s| ==> s[i] == x
    ensures Sum(s) == |s| as real * x
  {
    if s != [] {
      SumOfConstant(s[1..], x);
    }
  }
}
