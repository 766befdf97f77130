# scales: the arithmetic of musical scales

The `scales` package turns musical intervals into note frequencies. It has three parts:

- `scale_from_rates` applies a sequence of frequency ratios to an origin frequency, one after the other.
- A `ToneBasis` is a sequence of intervals in cents. It converts them to ratios (2^(c/1200)) and stacks them into a scale on any origin. The basis `equidistant(n)` divides the octave into `n` equal steps.
- A `Scale` holds a mutable array of note frequencies. It is built from an origin and rates, or from the notes themselves. It reports the ratios and the intervals (1200·log2 of the ratios) between consecutive notes. `set_note` retunes one note in place, relative to the note itself (`'current'`), to the note before it (`'previous'`), or to the first note (`'origin'`).

The model is in two modules:

- `Pitch` (`pitch.dfy`) holds the shared arithmetic. `Conversion` pairs the cents→ratio map with its inverse, the ratio→cents map. `Lawful()` states the laws of 2^(c/1200) that the proofs use: the ratio is positive, 0 cents is 1, 1200 cents is 2, a sum of intervals is a product of ratios, and the two maps are inverse on the positive reals. `Sum` and `Product` of a sequence are also here.
- `Scales` (`scales.dfy`) holds the rest:
  - `scale_from_rates` is the function `ScaleFromRates`, built on `CumProd`.
  - The read-only parts of a scale are `NoteRates` and `NoteIntervals`.
  - `ToneBasis` is a datatype.
  - `Scale` is a class over an `array<real>`. `SetNote` updates it in place and is proved against the function `EditNote`.

Python exceptions become `Result` values: `ZeroDivisionError`, `IndexError` and `ValueError` with the library's messages. An index in `set_note` follows Python's rules: a negative index counts from the end, and an index out of range is an `IndexError`.

## Model

| member | source | states |
|---|---|---|
| Scales.CumProd | scales/__init__.py:12 | numpy's cumulative product, the running product seeded with 1: one element per input element; `CumProdIsProducts` gives each element's value |
| Scales.CumProdIsProducts | scales/__init__.py:12 | element i of the cumulative product (`np.cumprod`) is the product of the first i+1 elements |
| Scales.RunningProductIsProducts | scales/__init__.py:12 | the running product seeded with `acc` has acc times the product of the first i+1 elements at position i (induction over the sequence) |
| Scales.ScaleFromRates | scales/__init__.py:7-12 | the scale has one note more than there are rates, starts at the origin, and each note is the previous one times the next rate |
| Scales.ScaleFromRatesProducts | scales/__init__.py:7-12 | note i is the origin times the product of the first i rates |
| Scales.ScaleFromRatesPositive | scales/__init__.py:7-12 | a positive origin and positive rates give only positive frequencies |
| Scales.ScaleFromRatesNonZero | scales/__init__.py:7-12 | a non-zero origin and non-zero rates give no zero frequency |
| Scales.ScaleFromRatesUnique | scales/__init__.py:7-12 | any sequence that starts at the origin and steps by the rates is exactly the scale from those rates |
| Scales.StepsAgree | scales/__init__.py:7-12 | two sequences with the same start and the same steps agree at every position (induction) |
| Scales.NoteRates | scales/__init__.py:74-76 | there is one ratio per pair of consecutive notes, and each note times its ratio is the next note |
| Scales.NoteIntervals | scales/__init__.py:78-80 | there is one interval per pair of consecutive notes; for positive notes under a lawful conversion, each note raised by its interval is the next note |
| Scales.RatesFromScale | scales/__init__.py:74-76 | reading the rates back from a scale built from non-zero rates gives exactly those rates |
| Scales.RateFromStepsAt | scales/__init__.py:74-76 | the i-th ratio read back from notes that step by non-zero rates is the i-th rate |
| Scales.NotesFromOwnRates | scales/__init__.py:74-76 | applying a scale's own ratios to its first note rebuilds the scale |
| Scales.ToneBasis.Equidistant | scales/__init__.py:26-33 | succeeds exactly when n > 0; n = 0 is a ZeroDivisionError and n < 0 is a ValueError about negative dimensions; on success there are n intervals, each 1200/n, summing to 1200 |
| Scales.ToneBasis.Rates | scales/__init__.py:35-39 | one ratio per interval, each the conversion of its interval; under a lawful conversion each is positive and converts back to its interval |
| Scales.RatesProduct | scales/__init__.py:35-39 | the product of a basis's rates is the ratio of the sum of its intervals (induction over the intervals) |
| Scales.ToneBasis.Frequencies | scales/__init__.py:41-46 | the scale on an origin has one note per interval plus the origin and steps by each interval's ratio; a positive origin gives positive notes |
| Scales.FrequencyAt | scales/__init__.py:41-46 | note i of a basis's scale is the origin raised by the sum of the first i intervals |
| Scales.StepsByIntervals | scales/__init__.py:41-46 | notes that step by the ratios of the intervals lie, at position i, the sum of the first i intervals above the first note (induction) |
| Scales.EquidistantSpansOctave | scales/__init__.py:26-46 | the equal division into n > 0 steps has rates whose product is 2, and its last note is twice the origin |
| Scales.IntervalsFromBasis | scales/__init__.py:78-80 | the intervals read back from a basis's scale on a positive origin are the basis's own intervals |
| Scales.BasisFromIntervals | scales/__init__.py:78-80 | the basis of a positive scale's own intervals, set on its first note, rebuilds the scale |
| Scales.ToneBasis.ToScale | scales/__init__.py:48-53 | gives a fresh Scale whose notes are the basis's scale on the origin |
| Scales.Construct | scales/__init__.py:56-68 | succeeds exactly when notes alone, or origin and rates together, are given; otherwise fails with the matching ValueError message; on success holds the notes given or the scale from origin and rates |
| Scales.Scale.FromRates | scales/__init__.py:64 | the notes are fresh storage holding ScaleFromRates(origin, rates) |
| Scales.Scale.FromNotes | scales/__init__.py:68 | the notes are fresh storage holding the given notes (also the path `copy` takes) |
| Scales.Scale.Create | scales/__init__.py:56-68 | fails exactly when Construct fails, with the same error; otherwise gives a fresh Scale in fresh storage holding Construct's notes |
| Scales.Scale.Copy | scales/__init__.py:70-72 | gives a fresh Scale in fresh storage with the same notes |
| Scales.EditCopy | scales/__init__.py:70-72 | editing a copy leaves the original's notes unchanged, and the copy holds the edited notes |
| Scales.Scale.Rates | scales/__init__.py:74-76 | one ratio per pair of consecutive notes; applied to the first note they rebuild the notes |
| Scales.Scale.Intervals | scales/__init__.py:78-80 | one interval per pair of consecutive notes; for positive notes under a lawful conversion, the basis of these intervals set on the first note rebuilds the notes |
| Scales.Position | scales/__init__.py:94-98 | a Python index picks out an element exactly when -length <= index < length; the element it picks is congruent to the index modulo the length, and a non-negative index picks itself |
| Scales.EditNote | scales/__init__.py:82-99 | fails with IndexError exactly when the reference is known and the index picks out no note, or the reference is "previous" and the index is -length; otherwise only the chosen note changes, to the current, previous or first note times the ratio of `cents`; an unknown reference changes nothing |
| Scales.Scale.SetNote | scales/__init__.py:82-99 | the array afterwards holds EditNote of the old notes and the scale itself is returned, or on IndexError the array is unchanged |
| Scales.EditKeepsPositive | scales/__init__.py:82-99 | every successful edit of positive notes leaves them positive |
| Scales.EditCurrentShifts | scales/__init__.py:93-94 | "current" moves the note by exactly `cents` from its old pitch |
| Scales.EditPreviousSetsInterval | scales/__init__.py:95-96 | "previous" makes the interval before the note exactly `cents`, keeps all notes positive, and leaves every interval not touching the note unchanged |
| Scales.EditOriginSetsDistance | scales/__init__.py:97-98 | "origin" puts the note exactly `cents` above the unchanged first note |
| Scales.EditOriginOfFirstNote | scales/__init__.py:93-98 | on the first note, "origin" and "current" give the same edit |
| Scales.PreviousOfFirstNote | scales/__init__.py:95-96 | "previous" on index 0 reads the last note, as Python's index -1 does; on index -length it is an IndexError; on the one-note float scale [440.0] it gives [440.0 times the ratio] |
| Scales.NegativeIndexNamesSameNote | scales/__init__.py:82-99 | index i - length gives the same edit as index i, except "previous" on the first note |
| Pitch.RatioOfSum | scales/__init__.py:39 | applies the additive law of `Lawful()` (the exponent law of 2^(c/1200)): the ratio of a sum of intervals is the product of their ratios |
| Pitch.ProductOfPrefixes | scales/__init__.py:12 | each longer prefix multiplies the previous prefix's product by its last element |
| Pitch.SumAppend | scales/__init__.py:41-46 | appending an interval adds it to the sum of the intervals (induction) |
| Pitch.ProductPositive | scales/__init__.py:12 | a product of positive factors is positive (induction) |
| Pitch.ProductNonZero | scales/__init__.py:12 | a product of non-zero factors is non-zero (induction) |
| Pitch.SumOfConstant | scales/__init__.py:32 | n copies of x sum to n·x (induction) |

## Left out

- Floating point is modelled as exact real arithmetic. Rounding, overflow of `2 ** x`, and `inf`/`nan` from numpy are not modelled.
- `2 ** (x/1200)` and `1200 * np.log2(x)` are the two maps of a `Conversion` value. Dafny's reals have neither an exponential nor a logarithm. Every property that depends on their meaning assumes `Conversion.Lawful()`, the laws of those functions that the proofs use.
- `ToneBasis.__init__` (`np.array(intervals)`) is the datatype constructor `ToneBasis`. Converting an arbitrary iterable into an array is not modelled.
- Dynamic typing is not modelled: every argument is a real or a sequence of reals, and the notes are a float array. `Scale(notes=[...])` given a list of Python ints holds an integer array. `set_note` then truncates each new note to an integer when it stores it, so `Scale(notes=[440]).set_note(0, 100, 'previous')` leaves `[466]`. The model covers float note arrays only. Non-integer `n` in `equidistant` is also not modelled.
- Scales.Scale.Rates: requires every note but the last to be non-zero. numpy would divide by zero and give `inf` or `nan` with a warning.
- Scales.NoteRates: requires every note but the last to be non-zero, for the same reason.
- Scales.Scale.Intervals: requires non-zero divisors, as `Scale.Rates` does. The link to tone bases is stated only for positive notes, since the logarithm of a non-positive ratio is `nan` or `-inf` in numpy.
- Scales.NoteIntervals: states the step property only for positive notes, for the same reason.
- Scales.Scale.SetNote: `reference` is compared as a string. Python would also accept a non-string value and treat it as unknown; that is not modelled.
- When `set_note` is given an index out of range and an unknown reference, it returns the scale unchanged without raising. The model does the same; nothing more is claimed about it.
- `Scale` constructed from an origin and rates where the rates are a numpy array of another shape (for example two-dimensional) is not modelled.
- The docstring of `set_note` calls the reference note of `'previous'` the note's predecessor, which note 0 does not have. The code reads `notes[-1]`, the last note, and the model follows the code (`PreviousOfFirstNote`).
