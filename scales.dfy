/**
 * The arithmetic of musical scales: building note frequencies from an origin
 * and interval ratios, tone bases given in cents, and scales whose notes are
 * edited in place.
 */
module Scales {
  import opened Pitch

  datatype Option<T> = None | Some(value: T)

  /** The exceptions the library raises. */
  datatype Error = ZeroDivisionError | IndexError | ValueError(message: string)

  datatype Result<T> = Success(value: T) | Failure(error: Error)

  const MissingOriginOrRates := "both origin and rates must be given if notes not given"
  const OriginOrRatesWithNotes := "origin and rates must be None if notes is given"
  const NegativeDimensions := "negative dimensions are not allowed"

  // ---------------------------------------------------------------------------
  // Cumulative products: scale_from_rates
  // ---------------------------------------------------------------------------

  /** The running products acc*s[0], acc*s[0]*s[1], ..., one per element of s. */
  function RunningProduct(acc: real, s: seq<real>): (r: seq<real>)
    ensures |r| == |s|
    decreases |s|
  {
    if s == [] then [] else [acc * s[0]] + RunningProduct(acc * s[0], s[1..])
  }

  /** Element i of the running products is acc times the product of s[..i+1]. */
  lemma {:induction false} RunningProductIsProducts(acc: real, s: seq<real>)
    ensures forall i :: 0 <= i < |s| ==> RunningProduct(acc, s)[i] == acc * Product(s[..i + 1])
    decreases |s|
  {
    if s != [] {
      var head := acc * s[0];
      var tail := RunningProduct(head, s[1..]);
      var r := RunningProduct(acc, s);
      assert r == [head] + tail;
      RunningProductIsProducts(head, s[1..]);
      forall i | 0 <= i < |s| ensures r[i] == acc * Product(s[..i + 1]) {
        if i > 0 {
          assert s[..i + 1][1..] == s[1..][..i];
          assert r[i] == tail[i - 1];
        }
      }
    }
  }

  /** The cumulative product of a sequence (numpy's cumprod). */
  function CumProd(s: seq<real>): (r: seq<real>)
    ensures |r| == |s|
  {
    RunningProduct(1.0, s)
  }

  /** Element i of the cumulative product is the product of s[..i+1]. */
  lemma CumProdIsProducts(s: seq<real>)
    ensures forall i :: 0 <= i < |s| ==> CumProd(s)[i] == Product(s[..i + 1])
  {
    RunningProductIsProducts(1.0, s);
  }

  /**
   * The frequencies obtained by applying the ratios `rates` one after the
   * other to `origin`: the cumulative product of [origin] + rates.
   */
  function ScaleFromRates(origin: real, rates: seq<real>): (r: seq<real>)
    ensures |r| == |rates| + 1 && r[0] == origin
    ensures forall i {:trigger rates[i]} :: 0 <= i < |rates| ==> r[i + 1] == r[i] * rates[i]
  {
    var s := [origin] + rates;
    assert forall i :: 0 <= i <= |rates| ==> s[..i + 1] == [origin] + rates[..i];
    assert forall i :: 0 <= i <= |rates| ==> ([origin] + rates[..i])[1..] == rates[..i];
    CumProdIsProducts(s);
    ProductOfPrefixes(rates);
    CumProd(s)
  }

  /** Note i of the scale is the origin times the product of the first i ratios. */
  lemma ScaleFromRatesProducts(origin: real, rates: seq<real>)
    ensures forall i :: 0 <= i <= |rates| ==> ScaleFromRates(origin, rates)[i] == origin * Product(rates[..i])
  {
    var s := [origin] + rates;
    assert forall i :: 0 <= i <= |rates| ==> s[..i + 1] == [origin] + rates[..i];
    assert forall i :: 0 <= i <= |rates| ==> ([origin] + rates[..i])[1..] == rates[..i];
    CumProdIsProducts(s);
  }

  /** A positive origin and positive ratios give positive notes. */
  lemma ScaleFromRatesPositive(origin: real, rates: seq<real>)
    requires origin > 0.0 && AllPositive(rates)
    ensures AllPositive(ScaleFromRates(origin, rates))
  {
    var r := ScaleFromRates(origin, rates);
    ScaleFromRatesProducts(origin, rates);
    forall i | 0 <= i < |r| ensures r[i] > 0.0 {
      ProductPositive(rates[..i]);
    }
  }

  /** A non-zero origin and non-zero ratios give non-zero notes. */
  lemma ScaleFromRatesNonZero(origin: real, rates: seq<real>)
    requires origin != 0.0 && AllNonZero(rates)
    ensures AllNonZero(ScaleFromRates(origin, rates))
  {
    var r := ScaleFromRates(origin, rates);
    ScaleFromRatesProducts(origin, rates);
    forall i | 0 <= i < |r| ensures r[i] != 0.0 {
      ProductNonZero(rates[..i]);
    }
  }

  /**
   * ScaleFromRates is the only sequence that starts at the origin and
   * steps from each note to the next by the corresponding ratio.
   */
  lemma ScaleFromRatesUnique(notes: seq<real>, origin: real, rates: seq<real>)
    requires |notes| == |rates| + 1 && notes[0] == origin
    requires forall i {:trigger rates[i]} :: 0 <= i < |rates| ==> notes[i + 1] == notes[i] * rates[i]
    ensures notes == ScaleFromRates(origin, rates)
  {
    var r := ScaleFromRates(origin, rates);
    forall k | 0 <= k <= |rates| ensures notes[k] == r[k] {
      StepsAgree(notes, r, rates, k);
    }
  }

  /** Two sequences with the same start and the same steps agree up to any position. */
  lemma {:induction false} StepsAgree(a: seq<real>, b: seq<real>, rates: seq<real>, k: nat)
    requires |a| == |b| == |rates| + 1 && a[0] == b[0] && k <= |rates|
    requires forall i {:trigger rates[i]} :: 0 <= i < |rates| ==> a[i + 1] == a[i] * rates[i]
    requires forall i {:trigger rates[i]} :: 0 <= i < |rates| ==> b[i + 1] == b[i] * rates[i]
    ensures a[k] == b[k]
  {
    if k > 0 {
      StepsAgree(a, b, rates, k - 1);
      assert a[k] == a[k - 1] * rates[k - 1] && b[k] == b[k - 1] * rates[k - 1];
    }
  }

  // ---------------------------------------------------------------------------
  // Ratios and intervals between consecutive notes
  // ---------------------------------------------------------------------------

  /** Every note that is divided by its successor in NoteRates is non-zero. */
  predicate NonZeroDivisors(notes: seq<real>)
  {
    forall i :: 0 <= i < |notes| - 1 ==> notes[i] != 0.0
  }

  /** The ratios notes[1:] / notes[:-1] between consecutive notes. */
  function NoteRates(notes: seq<real>): (r: seq<real>)
    requires NonZeroDivisors(notes)
    ensures |r| == if notes == [] then 0 else |notes| - 1
    ensures forall i {:trigger r[i]} :: 0 <= i < |r| ==> notes[i] * r[i] == notes[i + 1]
  {
    if notes == [] then []
    else seq(|notes| - 1, i requires 0 <= i < |notes| - 1 => notes[i + 1] / notes[i])
  }

  /** The intervals in cents between consecutive notes. */
  function NoteIntervals(notes: seq<real>, conv: Conversion): (r: seq<real>)
    requires NonZeroDivisors(notes)
    ensures |r| == |NoteRates(notes)|
    ensures conv.Lawful() && AllPositive(notes) ==>
      forall i {:trigger r[i]} :: 0 <= i < |r| ==> notes[i] * conv.ratio(r[i]) == notes[i + 1]
  {
    var rates := NoteRates(notes);
    assert AllPositive(notes) ==> AllPositive(rates) by {
      if AllPositive(notes) {
        forall i | 0 <= i < |rates| ensures rates[i] > 0.0 {
          PositiveQuotient(notes[i], rates[i], notes[i + 1]);
        }
      }
    }
    seq(|rates|, i requires 0 <= i < |rates| => conv.cents(rates[i]))
  }

  /** A factor that takes a positive number to a positive product is positive. */
  lemma PositiveQuotient(x: real, q: real, y: real)
    requires x > 0.0 && y > 0.0 && x * q == y
    ensures q > 0.0
  {
  }

  /** Reading the ratios back from a scale built from non-zero ratios gives those ratios. */
  lemma RatesFromScale(origin: real, rates: seq<real>)
    requires origin != 0.0 && AllNonZero(rates)
    ensures NonZeroDivisors(ScaleFromRates(origin, rates))
    ensures NoteRates(ScaleFromRates(origin, rates)) == rates
  {
    ScaleFromRatesNonZero(origin, rates);
    forall i | 0 <= i < |rates| ensures NoteRates(ScaleFromRates(origin, rates))[i] == rates[i] {
      RateFromStepsAt(ScaleFromRates(origin, rates), rates, i);
    }
  }

  /** The i-th ratio read back from notes that step by non-zero ratios is rates[i]. */
  lemma RateFromStepsAt(notes: seq<real>, rates: seq<real>, i: nat)
    requires |notes| == |rates| + 1 && AllNonZero(notes) && i < |rates|
    requires forall i {:trigger rates[i]} :: 0 <= i < |rates| ==> notes[i + 1] == notes[i] * rates[i]
    ensures NoteRates(notes)[i] == rates[i]
  {
    var back := NoteRates(notes);
    Cancel(notes[i], back[i], rates[i]);
  }

  /** Multiplication by a non-zero number is injective. */
  lemma Cancel(x: real, a: real, b: real)
    requires x != 0.0 && x * a == x * b
    ensures a == b
  {
  }

  /** Dividing a product by its non-zero first factor gives back the second. */
  lemma MulDivCancel(x: real, q: real)
    requires x != 0.0
    ensures (x * q) / x == q
  {
  }

  /** Applying a scale's own ratios to its first note rebuilds the scale. */
  lemma NotesFromOwnRates(notes: seq<real>)
    requires |notes| > 0 && NonZeroDivisors(notes)
    ensures ScaleFromRates(notes[0], NoteRates(notes)) == notes
  {
    ScaleFromRatesUnique(notes, notes[0], NoteRates(notes));
  }

  // ---------------------------------------------------------------------------
  // Tone bases
  // ---------------------------------------------------------------------------

  /** A fixed sequence of intervals in cents that can be stacked into scales. */
  datatype ToneBasis = ToneBasis(intervals: seq<real>)
  {
    /**
     * The equal division of the octave into n intervals. n = 0 divides by
     * zero, and a negative n is a negative array dimension.
     */
    static function Equidistant(n: int): (r: Result<ToneBasis>)
      ensures r.Success? <==> n > 0
      ensures n == 0 ==> r == Failure(ZeroDivisionError)
      ensures n < 0 ==> r == Failure(ValueError(NegativeDimensions))
      ensures r.Success? ==> |r.value.intervals| == n && Sum(r.value.intervals) == 1200.0
      ensures r.Success? ==> forall i :: 0 <= i < n ==> r.value.intervals[i] == 1200.0 / n as real
    {
      if n == 0 then Failure(ZeroDivisionError)
      else if n < 0 then Failure(ValueError(NegativeDimensions))
      else
        var step := 1200.0 / n as real;
        var intervals := seq(n, _ => step);
        SumOfConstant(intervals, step);
        Success(ToneBasis(intervals))
    }

    /**
     * The frequency ratio of each interval, in order: under a lawful
     * conversion each is positive and converts back to its interval.
     */
    function Rates(conv: Conversion): (r: seq<real>)
      ensures |r| == |intervals|
      ensures forall i :: 0 <= i < |r| ==> r[i] == conv.ratio(intervals[i])
      ensures conv.Lawful() ==>
        forall i :: 0 <= i < |r| ==> r[i] > 0.0 && conv.cents(r[i]) == intervals[i]
    {
      var r := seq(|intervals|, i requires 0 <= i < |intervals| => conv.ratio(intervals[i]));
      assert forall i :: 0 <= i < |r| ==> r[i] == conv.ratio(intervals[i]);
      assert conv.Lawful() ==>
        forall i :: 0 <= i < |r| ==> r[i] > 0.0 && conv.cents(r[i]) == intervals[i] by {
        if conv.Lawful() {
          forall i | 0 <= i < |r| ensures r[i] > 0.0 && conv.cents(r[i]) == intervals[i] {
            assert conv.cents(conv.ratio(intervals[i])) == intervals[i];
          }
        }
      }
      r
    }

    /**
     * The frequencies of the scale on `origin`: each note is the previous one
     * raised by the next interval, and a positive origin gives positive notes.
     */
    function Frequencies(origin: real, conv: Conversion): (r: seq<real>)
      ensures |r| == |intervals| + 1 && r[0] == origin
      ensures forall i {:trigger intervals[i]} :: 0 <= i < |intervals| ==>
        r[i + 1] == r[i] * conv.ratio(intervals[i])
      ensures conv.Lawful() && origin > 0.0 ==> AllPositive(r)
    {
      var rates := Rates(conv);
      var r := ScaleFromRates(origin, rates);
      assert conv.Lawful() && origin > 0.0 ==> AllPositive(r) by {
        if conv.Lawful() && origin > 0.0 {
          ScaleFromRatesPositive(origin, rates);
        }
      }
      assert forall i {:trigger intervals[i]} :: 0 <= i < |intervals| ==>
        r[i + 1] == r[i] * conv.ratio(intervals[i]) by {
        forall i | 0 <= i < |intervals| ensures r[i + 1] == r[i] * conv.ratio(intervals[i]) {
          assert rates[i] == conv.ratio(intervals[i]);
        }
      }
      r
    }

    /** A Scale object holding the frequencies of the scale on `origin`. */
    method ToScale(origin: real, conv: Conversion) returns (s: Scale)
      ensures fresh(s) && fresh(s.notes)
      ensures s.notes[..] == Frequencies(origin, conv)
    {
      s := new Scale.FromRates(origin, Rates(conv));
    }
  }

  /** The product of a basis's rates is the ratio of the sum of its intervals. */
  lemma {:induction false} RatesProduct(basis: ToneBasis, conv: Conversion)
    requires conv.Lawful()
    ensures Product(basis.Rates(conv)) == conv.ratio(Sum(basis.intervals))
    decreases |basis.intervals|
  {
    var iv := basis.intervals;
    if iv == [] {
    } else {
      var rest := ToneBasis(iv[1..]);
      RatesProduct(rest, conv);
      assert basis.Rates(conv)[1..] == rest.Rates(conv);
      RatioOfSum(conv, iv[0], Sum(iv[1..]));
    }
  }

  /** Note i of a basis's scale lies the sum of the first i intervals above the origin. */
  lemma FrequencyAt(basis: ToneBasis, origin: real, conv: Conversion, i: nat)
    requires conv.Lawful() && i <= |basis.intervals|
    ensures basis.Frequencies(origin, conv)[i] == origin * conv.ratio(Sum(basis.intervals[..i]))
  {
    StepsByIntervals(basis.Frequencies(origin, conv), basis.intervals, conv, i);
  }

  /**
   * Notes that step from each to the next by the ratio of an interval lie,
   * at position i, the sum of the first i intervals above the first note.
   */
  lemma {:induction false} StepsByIntervals(notes: seq<real>, intervals: seq<real>, conv: Conversion, i: nat)
    requires conv.Lawful() && |notes| == |intervals| + 1 && i <= |intervals|
    requires forall k {:trigger intervals[k]} :: 0 <= k < |intervals| ==>
      notes[k + 1] == notes[k] * conv.ratio(intervals[k])
    ensures notes[i] == notes[0] * conv.ratio(Sum(intervals[..i]))
  {
    if i == 0 {
      assert intervals[..0] == [];
    } else {
      StepsByIntervals(notes, intervals, conv, i - 1);
      var before := Sum(intervals[..i - 1]);
      var step := intervals[i - 1];
      assert Sum(intervals[..i]) == before + step by {
        assert intervals[..i] == intervals[..i - 1] + [step];
        SumAppend(intervals[..i - 1], step);
      }
      RatioOfSum(conv, before, step);
      assert notes[i] == notes[i - 1] * conv.ratio(step);
    }
  }

  /** The equal division of the octave spans exactly one octave. */
  lemma EquidistantSpansOctave(n: int, origin: real, conv: Conversion)
    requires conv.Lawful() && n > 0
    ensures ToneBasis.Equidistant(n).Success?
    ensures Product(ToneBasis.Equidistant(n).value.Rates(conv)) == 2.0
    ensures ToneBasis.Equidistant(n).value.Frequencies(origin, conv)[n] == 2.0 * origin
  {
    var b := ToneBasis.Equidistant(n).value;
    RatesProduct(b, conv);
    FrequencyAt(b, origin, conv, n);
    assert b.intervals[..n] == b.intervals;
  }

  /** The intervals read back from the scale of a tone basis are the basis's own. */
  lemma IntervalsFromBasis(basis: ToneBasis, origin: real, conv: Conversion)
    requires conv.Lawful() && origin > 0.0
    ensures NonZeroDivisors(basis.Frequencies(origin, conv))
    ensures NoteIntervals(basis.Frequencies(origin, conv), conv) == basis.intervals
  {
    var rates := basis.Rates(conv);
    assert AllNonZero(rates);
    RatesFromScale(origin, rates);
  }

  /** The tone basis of a scale's own intervals, set on its first note, rebuilds it. */
  lemma BasisFromIntervals(notes: seq<real>, conv: Conversion)
    requires conv.Lawful() && |notes| > 0 && AllPositive(notes)
    ensures ToneBasis(NoteIntervals(notes, conv)).Frequencies(notes[0], conv) == notes
  {
    var rates := ToneBasis(NoteIntervals(notes, conv)).Rates(conv);
    var own := NoteRates(notes);
    assert rates == own by {
      forall i | 0 <= i < |rates| ensures rates[i] == own[i] {
        PositiveQuotient(notes[i], own[i], notes[i + 1]);
      }
    }
    NotesFromOwnRates(notes);
  }

  // ---------------------------------------------------------------------------
  // Scales
  // ---------------------------------------------------------------------------

  /**
   * The notes a Scale is constructed with: from an origin and rates, or from
   * the notes themselves, but never from both and never from neither.
   */
  function Construct(origin: Option<real>, rates: Option<seq<real>>, notes: Option<seq<real>>): (r: Result<seq<real>>)
    ensures r.Success? <==>
      (notes.None? && origin.Some? && rates.Some?) || (notes.Some? && origin.None? && rates.None?)
    ensures r.Failure? ==>
      r.error == ValueError(if notes.None? then MissingOriginOrRates else OriginOrRatesWithNotes)
    ensures r.Success? && notes.Some? ==> r.value == notes.value
    ensures r.Success? && notes.None? ==> r.value == ScaleFromRates(origin.value, rates.value)
  {
    if notes.None? then
      if origin.None? || rates.None? then Failure(ValueError(MissingOriginOrRates))
      else Success(ScaleFromRates(origin.value, rates.value))
    else if origin.Some? || rates.Some? then Failure(ValueError(OriginOrRatesWithNotes))
    else Success(notes.value)
  }

  /**
   * The element a Python index picks out of a sequence of `length` elements:
   * a negative index counts from the end, and anything else out of range is
   * an IndexError.
   */
  function Position(index: int, length: nat): (p: Option<nat>)
    ensures p.Some? <==> -(length as int) <= index < length
    ensures p.Some? ==> p.value < length && p.value % length == index % length
    ensures p.Some? && index >= 0 ==> p.value == index
  {
    if 0 <= index < length then Some(index)
    else if -(length as int) <= index < 0 then Some(index + length)
    else None
  }

  /** The references set_note understands. */
  const References: set<string> := {"current", "previous", "origin"}

  /**
   * The notes after note `index` is set `cents` above a reference: its own
   * pitch ("current"), the note at index - 1 ("previous") or the first note
   * ("origin"). An index that picks out no note is an IndexError, and so is
   * "previous" on the index -|notes|, whose index - 1 is out of range. Any
   * other reference changes nothing and checks nothing.
   */
  function EditNote(notes: seq<real>, index: int, cents: real, reference: string, conv: Conversion): (r: Result<seq<real>>)
    ensures r.Failure? <==>
      reference in References &&
      (Position(index, |notes|).None? || (reference == "previous" && index == -|notes|))
    ensures r.Failure? ==> r.error == IndexError
    ensures r.Success? ==> |r.value| == |notes|
    ensures r.Success? ==>
      forall j :: 0 <= j < |notes| && Position(index, |notes|) != Some(j) ==> r.value[j] == notes[j]
    ensures r.Success? && reference == "current" ==>
      var p := Position(index, |notes|).value;
      r.value[p] == notes[p] * conv.ratio(cents)
    ensures r.Success? && reference == "previous" ==>
      r.value[Position(index, |notes|).value] == notes[Position(index - 1, |notes|).value] * conv.ratio(cents)
    ensures r.Success? && reference == "origin" ==>
      r.value[Position(index, |notes|).value] == notes[0] * conv.ratio(cents)
    ensures reference !in References ==> r == Success(notes)
  {
    var rate := conv.ratio(cents);
    var target := Position(index, |notes|);
    if reference == "current" then
      if target.None? then Failure(IndexError)
      else Success(notes[target.value := notes[target.value] * rate])
    else if reference == "previous" then
      var source := Position(index - 1, |notes|);
      if source.None? || target.None? then Failure(IndexError)
      else Success(notes[target.value := notes[source.value] * rate])
    else if reference == "origin" then
      var source := Position(0, |notes|);
      if source.None? || target.None? then Failure(IndexError)
      else Success(notes[target.value := notes[source.value] * rate])
    else Success(notes)
  }

  /** A scale: a mutable array of note frequencies. */
  class Scale {
    var notes: array<real>

    /** The scale built on `origin` by the ratios `rates`. */
    constructor FromRates(origin: real, rates: seq<real>)
      ensures fresh(notes)
      ensures notes[..] == ScaleFromRates(origin, rates)
    {
      var frequencies := ScaleFromRates(origin, rates);
      notes := new real[|frequencies|](i requires 0 <= i < |frequencies| => frequencies[i]);
    }

    /** The scale holding a copy of `notes`. */
    constructor FromNotes(notes: seq<real>)
      ensures fresh(this.notes)
      ensures this.notes[..] == notes
    {
      this.notes := new real[|notes|](i requires 0 <= i < |notes| => notes[i]);
    }

    /**
     * The constructor taking optional origin, rates and notes: exactly one of
     * (origin and rates) or notes must be given.
     */
    static method Create(origin: Option<real>, rates: Option<seq<real>>, notes: Option<seq<real>>)
      returns (r: Result<Scale>)
      ensures r.Failure? <==> Construct(origin, rates, notes).Failure?
      ensures r.Failure? ==> r.error == Construct(origin, rates, notes).error
      ensures r.Success? ==>
        fresh(r.value) && fresh(r.value.notes) && r.value.notes[..] == Construct(origin, rates, notes).value
    {
      if notes.None? {
        if origin.None? || rates.None? {
          return Failure(ValueError(MissingOriginOrRates));
        }
        var s := new Scale.FromRates(origin.value, rates.value);
        return Success(s);
      } else {
        if origin.Some? || rates.Some? {
          return Failure(ValueError(OriginOrRatesWithNotes));
        }
        var s := new Scale.FromNotes(notes.value);
        return Success(s);
      }
    }

    /** A scale with the same notes in storage of its own. */
    method Copy() returns (c: Scale)
      ensures fresh(c) && fresh(c.notes)
      ensures c.notes[..] == notes[..]
    {
      c := new Scale.FromNotes(notes[..]);
    }

    /** The ratios between consecutive notes; applied to the first note they rebuild the notes. */
    function Rates(): (r: seq<real>)
      reads this, notes
      requires NonZeroDivisors(notes[..])
      ensures |r| == if notes.Length == 0 then 0 else notes.Length - 1
      ensures notes.Length > 0 ==> ScaleFromRates(notes[0], r) == notes[..]
    {
      if notes.Length == 0 then []
      else
        NotesFromOwnRates(notes[..]);
        NoteRates(notes[..])
    }

    /**
     * The intervals in cents between consecutive notes; for positive notes,
     * the tone basis of these intervals set on the first note rebuilds the notes.
     */
    function Intervals(conv: Conversion): (r: seq<real>)
      reads this, notes
      requires NonZeroDivisors(notes[..])
      ensures |r| == if notes.Length == 0 then 0 else notes.Length - 1
      ensures conv.Lawful() && notes.Length > 0 && AllPositive(notes[..]) ==>
        ToneBasis(r).Frequencies(notes[0], conv) == notes[..]
    {
      var r := NoteIntervals(notes[..], conv);
      assert conv.Lawful() && notes.Length > 0 && AllPositive(notes[..]) ==>
        ToneBasis(r).Frequencies(notes[0], conv) == notes[..] by {
        if conv.Lawful() && notes.Length > 0 && AllPositive(notes[..]) {
          BasisFromIntervals(notes[..], conv);
        }
      }
      r
    }

    /**
     * Sets note `index` `cents` above the chosen reference, changing no other
     * note, and returns this scale; an index out of range leaves the notes
     * as they were.
     */
    method SetNote(conv: Conversion, index: int, cents: real, reference: string := "current")
      returns (r: Result<Scale>)
      modifies notes
      ensures r.Failure? <==> EditNote(old(notes[..]), index, cents, reference, conv).Failure?
      ensures r.Failure? ==> r.error == IndexError && notes[..] == old(notes[..])
      ensures r.Success? ==>
        r.value == this && notes[..] == EditNote(old(notes[..]), index, cents, reference, conv).value
    {
      var rate := conv.ratio(cents);
      var target := Position(index, notes.Length);
      if reference == "current" {
        if target.None? {
          return Failure(IndexError);
        }
        notes[target.value] := notes[target.value] * rate;
      } else if reference == "previous" {
        var source := Position(index - 1, notes.Length);
        if source.None? || target.None? {
          return Failure(IndexError);
        }
        notes[target.value] := notes[source.value] * rate;
      } else if reference == "origin" {
        var source := Position(0, notes.Length);
        if source.None? || target.None? {
          return Failure(IndexError);
        }
        notes[target.value] := notes[source.value] * rate;
      }
      ghost var edited := EditNote(old(notes[..]), index, cents, reference, conv).value;
      assert forall j :: 0 <= j < notes.Length ==> notes[j] == edited[j];
      return Success(this);
    }
  }

  /** Editing a copy of a scale leaves the original's notes as they were. */
  method EditCopy(conv: Conversion, s: Scale, index: int, cents: real, reference: string)
    returns (r: Result<Scale>)
    ensures s.notes[..] == old(s.notes[..])
    ensures r.Failure? <==> EditNote(s.notes[..], index, cents, reference, conv).Failure?
    ensures r.Success? ==>
      fresh(r.value) && fresh(r.value.notes) &&
      r.value.notes[..] == EditNote(s.notes[..], index, cents, reference, conv).value
  {
    var c := s.Copy();
    r := c.SetNote(conv, index, cents, reference);
  }

  // ---------------------------------------------------------------------------
  // What an edit means
  // ---------------------------------------------------------------------------

  /** Every edit of positive notes under a lawful conversion leaves them positive. */
  lemma EditKeepsPositive(notes: seq<real>, index: int, cents: real, reference: string, conv: Conversion)
    requires conv.Lawful() && AllPositive(notes)
    requires EditNote(notes, index, cents, reference, conv).Success?
    ensures AllPositive(EditNote(notes, index, cents, reference, conv).value)
  {
  }

  /** "current" moves the note by exactly `cents` from where it was. */
  lemma EditCurrentShifts(notes: seq<real>, index: nat, cents: real, conv: Conversion)
    requires conv.Lawful() && index < |notes| && notes[index] != 0.0
    ensures EditNote(notes, index, cents, "current", conv).Success?
    ensures conv.cents(EditNote(notes, index, cents, "current", conv).value[index] / notes[index]) == cents
  {
    var e := EditNote(notes, index, cents, "current", conv).value;
    assert e[index] / notes[index] == conv.ratio(cents) by {
      MulDivCancel(notes[index], conv.ratio(cents));
    }
  }

  /**
   * "previous" puts the note exactly `cents` above its predecessor: the
   * interval before it becomes `cents`, and every interval not touching it
   * stays as it was.
   */
  lemma EditPreviousSetsInterval(notes: seq<real>, index: nat, cents: real, conv: Conversion)
    requires conv.Lawful() && 0 < index < |notes| && AllPositive(notes)
    ensures EditNote(notes, index, cents, "previous", conv).Success?
    ensures AllPositive(EditNote(notes, index, cents, "previous", conv).value)
    ensures NoteIntervals(EditNote(notes, index, cents, "previous", conv).value, conv)[index - 1] == cents
    ensures forall j :: 0 <= j < |notes| - 1 && j != index - 1 && j != index ==>
      NoteIntervals(EditNote(notes, index, cents, "previous", conv).value, conv)[j] == NoteIntervals(notes, conv)[j]
  {
    var r := EditNote(notes, index, cents, "previous", conv).value;
    EditKeepsPositive(notes, index, cents, "previous", conv);
    var rates := NoteRates(r);
    Cancel(r[index - 1], rates[index - 1], conv.ratio(cents));
  }

  /** "origin" puts the note exactly `cents` above the first note. */
  lemma EditOriginSetsDistance(notes: seq<real>, index: nat, cents: real, conv: Conversion)
    requires conv.Lawful() && 0 < index < |notes| && notes[0] != 0.0
    ensures EditNote(notes, index, cents, "origin", conv).Success?
    ensures var r := EditNote(notes, index, cents, "origin", conv).value;
      r[0] == notes[0] && conv.cents(r[index] / r[0]) == cents
  {
    var e := EditNote(notes, index, cents, "origin", conv).value;
    assert e[index] / e[0] == conv.ratio(cents) by {
      MulDivCancel(notes[0], conv.ratio(cents));
    }
  }

  /** Setting the first note relative to the origin is setting it relative to itself. */
  lemma EditOriginOfFirstNote(notes: seq<real>, cents: real, conv: Conversion)
    requires |notes| > 0
    ensures EditNote(notes, 0, cents, "origin", conv).Success?
    ensures EditNote(notes, 0, cents, "origin", conv) == EditNote(notes, 0, cents, "current", conv)
  {
    var byOrigin := EditNote(notes, 0, cents, "origin", conv).value;
    var byCurrent := EditNote(notes, 0, cents, "current", conv).value;
    assert forall j :: 0 <= j < |notes| ==> byOrigin[j] == byCurrent[j];
  }

  /**
   * "previous" on the first note reads index -1, the last note, while on the
   * same note named by the index -|notes| it reads out of range.
   */
  lemma PreviousOfFirstNote(notes: seq<real>, cents: real, conv: Conversion)
    requires |notes| > 0
    ensures EditNote(notes, 0, cents, "previous", conv).Success?
    ensures EditNote(notes, 0, cents, "previous", conv).value[0] == notes[|notes| - 1] * conv.ratio(cents)
    ensures EditNote(notes, -|notes|, cents, "previous", conv) == Failure(IndexError)
    ensures EditNote([440.0], 0, 100.0, "previous", conv) == Success([440.0 * conv.ratio(100.0)])
  {
    var single := EditNote([440.0], 0, 100.0, "previous", conv).value;
    assert single == [440.0 * conv.ratio(100.0)] by {
      assert single[0] == 440.0 * conv.ratio(100.0);
    }
  }

  /**
   * A negative index names the same note as the index |notes| higher, so the
   * edit is the same, except "previous" on the first note named -|notes|.
   */
  lemma NegativeIndexNamesSameNote(notes: seq<real>, index: nat, cents: real, reference: string, conv: Conversion)
    requires index < |notes|
    requires reference != "previous" || index > 0
    ensures EditNote(notes, index - |notes|, cents, reference, conv) == EditNote(notes, index, cents, reference, conv)
  {
    var fromEnd := EditNote(notes, index - |notes|, cents, reference, conv);
    var fromStart := EditNote(notes, index, cents, reference, conv);
    if reference in References {
      assert fromEnd.value == fromStart.value by {
        assert forall j :: 0 <= j < |notes| ==> fromEnd.value[j] == fromStart.value[j];
      }
    }
  }
}
