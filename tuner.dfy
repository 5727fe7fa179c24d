/**
 * The tuner of src/components/Tuner.tsx: the YIN-style period search of
 * `detectPitch` (de Cheveigne and Kawahara, 2002, steps 2 to 4), the
 * equal-tempered note mapping of `findClosestNote`, the target-note check of
 * `analyzePitch`, and the two display classifiers.
 *
 * Samples and frequencies are reals, so the sums are exact where the source
 * rounds to 32- and 64-bit floating point. `Math.log2` is not modelled: the
 * continuous note number `12 * log2(f / 440) + 69` is an input.
 */
module Tuner {

  import opened Types
  import opened Text
  import opened JsMath

  /**
   * A JavaScript number as the detector's normalisation produces it: a real
   * value, or NaN from `0 * lag / 0`.
   */
  datatype Num = Finite(value: real) | NaN

  /** `a < b` on numbers: false as soon as either side is NaN. */
  predicate Less(a: Num, b: Num) {
    a.Finite? && b.Finite? && a.value < b.value
  }

  /** Normalised differences below this mark the start of a dip. */
  const Threshold: real := 0.12
  /** Lowest and highest frequency (Hz) the detector reports. */
  const MinFreq: int := 65
  const MaxFreq: int := 1200
  /** A buffer whose sum of squares is below this is silence. */
  const SilenceEnergy: real := 0.005

  /** `Math.floor(sampleRate / minFreq)`: the lags searched are `0 .. MaxPeriod - 1`. */
  function MaxPeriod(sampleRate: nat): nat {
    sampleRate / MinFreq
  }

  // ---------------------------------------------------------------------
  // The difference function and its normalisation

  function Square(x: real): (r: real)
    ensures 0.0 <= r
  {
    x * x
  }

  /** The sum of squares of the first `n` samples. */
  function Energy(b: seq<real>, n: nat): (e: real)
    requires n <= |b|
    ensures 0.0 <= e
  {
    if n == 0 then 0.0 else Energy(b, n - 1) + Square(b[n - 1])
  }

  /** `sum (b[i] - b[i + lag])^2` over the first `n` positions `i`. */
  function SquareDiffSum(b: seq<real>, lag: nat, n: nat): (s: real)
    requires n + lag <= |b|
    ensures 0.0 <= s
  {
    if n == 0 then 0.0 else SquareDiffSum(b, lag, n - 1) + Square(b[n - 1] - b[n - 1 + lag])
  }

  /** The raw difference at `lag`: every `i` with `i + lag < |b|` contributes. */
  function Raw(b: seq<real>, lag: nat): (s: real)
    ensures 0.0 <= s
  {
    if lag < |b| then SquareDiffSum(b, lag, |b| - lag) else 0.0
  }

  /** `runningSum` after lag `lag`: the raw differences at lags 1 to `lag`. */
  function CumRaw(b: seq<real>, lag: nat): (s: real)
    ensures 0.0 <= s
    ensures 1 <= lag ==> Raw(b, lag) <= s
  {
    if lag == 0 then 0.0 else CumRaw(b, lag - 1) + Raw(b, lag)
  }

  /**
   * The cumulative-mean normalised difference: 1 at lag 0, and
   * `Raw(lag) * lag / CumRaw(lag)` after it. `CumRaw` is 0 only when the
   * raw difference itself is 0, and JavaScript's `0 / 0` is NaN.
   */
  function Normalized(b: seq<real>, lag: nat): (v: Num)
    ensures lag == 0 ==> v == Finite(1.0)
    ensures 1 <= lag ==> (v.NaN? <==> CumRaw(b, lag) == 0.0)
    ensures v.Finite? ==> 0.0 <= v.value
  {
    if lag == 0 then Finite(1.0)
    else NormalizedValue(Raw(b, lag), lag, CumRaw(b, lag))
  }

  /** `raw * lag / sum` as JavaScript computes it: `0 / 0` is NaN. */
  function NormalizedValue(raw: real, lag: nat, sum: real): (v: Num)
    requires 0.0 <= raw && 0.0 <= sum
    ensures v.NaN? <==> sum == 0.0
    ensures v.Finite? ==> 0.0 <= v.value
  {
    if sum == 0.0 then NaN else Finite(raw * lag as real / sum)
  }

  /** The `differences` array once normalised, for `maxPeriod` lags. */
  function Profile(b: seq<real>, maxPeriod: nat): (d: seq<Num>)
    ensures |d| == maxPeriod
    ensures forall lag :: 0 <= lag < maxPeriod ==> d[lag] == Normalized(b, lag)
  {
    seq(maxPeriod, lag requires 0 <= lag < maxPeriod => Normalized(b, lag))
  }

  // ---------------------------------------------------------------------
  // The period search

  predicate IsDip(d: seq<Num>, lag: nat)
    requires lag < |d|
  {
    Less(d[lag], Finite(Threshold))
  }

  /** The first lag at or after `from` whose normalised value is below the threshold. */
  function FirstDip(d: seq<Num>, from: nat): (r: Option<nat>)
    decreases |d| - from
    ensures r.None? <==> forall lag :: from <= lag < |d| ==> !IsDip(d, lag)
    ensures r.Some? ==> from <= r.value < |d| && IsDip(d, r.value)
    ensures r.Some? ==> forall lag :: from <= lag < r.value ==> !IsDip(d, lag)
  {
    if |d| <= from then None
    else if IsDip(d, from) then Some(from)
    else FirstDip(d, from + 1)
  }

  /** The end of the strictly decreasing run that starts at `lag`. */
  function RunEnd(d: seq<Num>, lag: nat): (r: nat)
    requires lag < |d|
    decreases |d| - lag
    ensures lag <= r < |d|
    ensures r + 1 == |d| || !Less(d[r + 1], d[r])
    ensures forall k :: lag <= k < r ==> Less(d[k + 1], d[k])
    ensures d[lag].Finite? ==> d[r].Finite? && d[r].value <= d[lag].value
  {
    if lag + 1 < |d| && Less(d[lag + 1], d[lag]) then RunEnd(d, lag + 1) else lag
  }

  /**
   * `bestPeriod`: 0 when no lag from 2 on dips below the threshold;
   * otherwise the bottom of the first dip.
   */
  function BestPeriod(d: seq<Num>): (p: nat)
    ensures p == 0 <==> forall lag :: 2 <= lag < |d| ==> !IsDip(d, lag)
    ensures p != 0 ==> 2 <= p < |d| && IsDip(d, p)
  {
    match FirstDip(d, 2)
    case None => 0
    case Some(lag) => RunEnd(d, lag)
  }

  /** When there is a dip, the best period ends the decreasing run from the first dip. */
  lemma BestPeriodIsBottomOfFirstDip(d: seq<Num>)
    requires FirstDip(d, 2).Some?
    ensures var first := FirstDip(d, 2).value; var p := BestPeriod(d);
      && first <= p < |d|
      && (forall lag :: 2 <= lag < first ==> !IsDip(d, lag))
      && (forall k :: first <= k < p ==> Less(d[k + 1], d[k]))
      && d[p].value <= d[first].value
      && (p + 1 == |d| || !Less(d[p + 1], d[p]))
  {
  }

  /**
   * `detectPitch`: 0 for silence, for no dip, or for a frequency outside
   * 65 to 1200 Hz; otherwise `sampleRate / bestPeriod`.
   */
  function PitchOf(b: seq<real>, sampleRate: nat): (f: real)
    ensures Energy(b, |b|) < SilenceEnergy ==> f == 0.0
    ensures f != 0.0 ==>
      var p := BestPeriod(Profile(b, MaxPeriod(sampleRate)));
      && p != 0
      && f == sampleRate as real / p as real
      && MinFreq as real <= f <= MaxFreq as real
    ensures SilenceEnergy <= Energy(b, |b|) ==>
      var p := BestPeriod(Profile(b, MaxPeriod(sampleRate)));
      p != 0 && MinFreq as real <= sampleRate as real / p as real <= MaxFreq as real
      ==> f == sampleRate as real / p as real
  {
    if Energy(b, |b|) < SilenceEnergy then 0.0
    else
      var p := BestPeriod(Profile(b, MaxPeriod(sampleRate)));
      if p == 0 then 0.0
      else
        var f := sampleRate as real / p as real;
        if MinFreq as real <= f <= MaxFreq as real then f else 0.0
  }

  /** A detected period always lies in the searched window, `2 <= p < MaxPeriod`. */
  lemma DetectedFrequencyInRange(b: seq<real>, sampleRate: nat)
    requires PitchOf(b, sampleRate) != 0.0
    ensures var p := BestPeriod(Profile(b, MaxPeriod(sampleRate)));
      && 2 <= p < MaxPeriod(sampleRate)
      && p as real * MinFreq as real <= sampleRate as real <= p as real * MaxFreq as real
  {
    var d := Profile(b, MaxPeriod(sampleRate));
    var p := BestPeriod(d);
    var f := PitchOf(b, sampleRate);
    assert f == sampleRate as real / p as real;
    RangeFromQuotient(sampleRate as real, p as real, f);
  }

  lemma RangeFromQuotient(rate: real, period: real, f: real)
    requires 0.0 < period && f == rate / period
    requires MinFreq as real <= f <= MaxFreq as real
    ensures period * MinFreq as real <= rate <= period * MaxFreq as real
  {
    assert rate == f * period;
  }

  // ---------------------------------------------------------------------
  // Properties of the detector on particular buffers

  lemma {:induction false} ZeroEnergy(b: seq<real>, n: nat)
    requires n <= |b|
    requires forall i :: 0 <= i < |b| ==> b[i] == 0.0
    ensures Energy(b, n) == 0.0
  {
    if n > 0 {
      ZeroEnergy(b, n - 1);
    }
  }

  /** An all-zero buffer, of any length, has no pitch. */
  lemma SilentBufferNoPitch(b: seq<real>, sampleRate: nat)
    requires forall i :: 0 <= i < |b| ==> b[i] == 0.0
    ensures PitchOf(b, sampleRate) == 0.0
  {
    ZeroEnergy(b, |b|);
  }

  lemma {:induction false} ConstantSquareDiffs(b: seq<real>, lag: nat, n: nat)
    requires n + lag <= |b|
    requires forall i :: 0 <= i < |b| ==> b[i] == b[0]
    ensures SquareDiffSum(b, lag, n) == 0.0
  {
    if n > 0 {
      ConstantSquareDiffs(b, lag, n - 1);
    }
  }

  lemma {:induction false} ConstantCumRaw(b: seq<real>, lag: nat)
    requires forall i :: 0 <= i < |b| ==> b[i] == b[0]
    ensures CumRaw(b, lag) == 0.0
  {
    if lag > 0 {
      ConstantCumRaw(b, lag - 1);
      if lag < |b| {
        ConstantSquareDiffs(b, lag, |b| - lag);
      }
    }
  }

  /**
   * A constant buffer, however loud, has no pitch: every normalised value
   * after lag 0 is `0 / 0`, NaN, which is never below the threshold.
   */
  lemma ConstantBufferNoPitch(b: seq<real>, sampleRate: nat)
    requires forall i :: 0 <= i < |b| ==> b[i] == b[0]
    ensures PitchOf(b, sampleRate) == 0.0
    ensures forall lag :: 1 <= lag ==> Normalized(b, lag).NaN?
  {
    forall lag | 1 <= lag ensures Normalized(b, lag).NaN? {
      ConstantCumRaw(b, lag);
    }
  }

  lemma {:induction false} CumRawGrows(b: seq<real>, lo: nat, hi: nat)
    requires lo <= hi
    ensures CumRaw(b, lo) <= CumRaw(b, hi)
  {
    if lo < hi {
      CumRawGrows(b, lo, hi - 1);
    }
  }

  /** Once two neighbouring samples differ, no normalised value is NaN. */
  lemma VaryingBufferHasNoNaN(b: seq<real>, lag: nat)
    requires 0.0 < Raw(b, 1)
    ensures Normalized(b, lag).Finite?
  {
    if lag >= 1 {
      CumRawGrows(b, 1, lag);
    }
  }

  /**
   * A lag at or past the end of the buffer has no terms left, so once the
   * running sum is positive its normalised value is 0: a dip. Buffers
   * shorter than `MaxPeriod` therefore always dip by lag `|b|`.
   */
  lemma LagsPastBufferDip(b: seq<real>, lag: nat)
    requires 2 <= |b| <= lag
    requires 0.0 < Raw(b, 1)
    ensures Normalized(b, lag) == Finite(0.0)
  {
    CumRawGrows(b, 1, lag);
  }

  // ---------------------------------------------------------------------
  // detectPitch, step by step

  /** The energy accumulator loop. */
  method SignalEnergy(buffer: seq<real>) returns (energy: real)
    ensures energy == Energy(buffer, |buffer|)
  {
    energy := 0.0;
    for i := 0 to |buffer|
      invariant energy == Energy(buffer, i)
    {
      energy := energy + buffer[i] * buffer[i];
    }
  }

  /** Step 1: the raw squared difference for every lag below `maxPeriod`. */
  method SquareDifferences(buffer: seq<real>, maxPeriod: nat) returns (differences: array<Num>)
    ensures fresh(differences)
    ensures differences.Length == maxPeriod
    ensures forall lag :: 0 <= lag < maxPeriod ==> differences[lag] == Finite(Raw(buffer, lag))
  {
    differences := new Num[maxPeriod](_ => Finite(0.0));
    for lag := 0 to maxPeriod
      invariant forall k :: 0 <= k < lag ==> differences[k] == Finite(Raw(buffer, k))
    {
      var squareDiff := LagDifference(buffer, lag);
      differences[lag] := Finite(squareDiff);
    }
  }

  /** The inner loop of step 1: the squared differences summed at one lag. */
  method LagDifference(buffer: seq<real>, lag: nat) returns (squareDiff: real)
    ensures squareDiff == Raw(buffer, lag)
  {
    squareDiff := 0.0;
    var i := 0;
    while i + lag < |buffer|
      invariant i == 0 || i + lag <= |buffer|
      invariant squareDiff == (if i == 0 then 0.0 else SquareDiffSum(buffer, lag, i))
    {
      var diff := buffer[i] - buffer[i + lag];
      squareDiff := squareDiff + diff * diff;
      i := i + 1;
    }
  }

  /** Step 2: the cumulative-mean normalisation, in place. */
  method NormalizeInPlace(buffer: seq<real>, differences: array<Num>)
    requires forall lag :: 0 <= lag < differences.Length ==> differences[lag] == Finite(Raw(buffer, lag))
    modifies differences
    ensures differences[..] == Profile(buffer, differences.Length)
  {
    if differences.Length == 0 {
      return;
    }
    differences[0] := Finite(1.0);
    var runningSum := 0.0;
    for lag := 1 to differences.Length
      invariant runningSum == CumRaw(buffer, lag - 1)
      invariant forall k :: 0 <= k < lag ==> differences[k] == Normalized(buffer, k)
      invariant forall k :: lag <= k < differences.Length ==> differences[k] == Finite(Raw(buffer, k))
    {
      runningSum := NormalizeLag(buffer, differences, lag, runningSum);
    }
    assert forall k :: 0 <= k < differences.Length ==> differences[..][k] == Profile(buffer, differences.Length)[k];
  }

  /** One pass of the normalisation loop: adds the lag's raw difference to the running sum and normalises it. */
  method NormalizeLag(buffer: seq<real>, differences: array<Num>, lag: nat, runningSum: real) returns (sum: real)
    requires 1 <= lag < differences.Length
    requires runningSum == CumRaw(buffer, lag - 1)
    requires differences[lag] == Finite(Raw(buffer, lag))
    modifies differences
    ensures sum == CumRaw(buffer, lag)
    ensures differences[lag] == Normalized(buffer, lag)
    ensures forall k :: 0 <= k < differences.Length && k != lag ==> differences[k] == old(differences[k])
  {
    var raw := differences[lag].value;
    sum := runningSum + raw;
    differences[lag] := NormalizedValue(raw, lag, sum);
  }

  /**
   * Step 3: scan from lag 2 for the first value below the threshold, then
   * follow the strictly decreasing run; `localMin` stays equal to `lag`.
   */
  method FindBestPeriod(differences: array<Num>) returns (bestPeriod: nat)
    ensures bestPeriod == BestPeriod(differences[..])
  {
    bestPeriod := 0;
    var lag := 2;
    while lag < differences.Length
      invariant 2 <= lag
      invariant FirstDip(differences[..], 2) == FirstDip(differences[..], lag)
    {
      if Less(differences[lag], Finite(Threshold)) {
        ghost var first := lag;
        var localMin := lag;
        while lag + 1 < differences.Length && Less(differences[lag + 1], differences[lag])
          invariant first <= lag < differences.Length
          invariant localMin == lag
          invariant RunEnd(differences[..], first) == RunEnd(differences[..], lag)
        {
          lag := lag + 1;
          if Less(differences[lag], differences[localMin]) {
            localMin := lag;
          }
        }
        bestPeriod := localMin;
        return;
      }
      lag := lag + 1;
    }
  }

  /** `detectPitch`: the detected frequency in Hz, or 0. */
  method DetectPitch(buffer: seq<real>, sampleRate: nat) returns (frequency: real)
    ensures frequency == PitchOf(buffer, sampleRate)
  {
    var maxPeriod := MaxPeriod(sampleRate);
    var energy := SignalEnergy(buffer);
    if energy < SilenceEnergy {
      return 0.0;
    }
    var differences := SquareDifferences(buffer, maxPeriod);
    NormalizeInPlace(buffer, differences);
    var bestPeriod := FindBestPeriod(differences);
    if bestPeriod != 0 {
      frequency := sampleRate as real / bestPeriod as real;
      if MinFreq as real <= frequency <= MaxFreq as real {
        return frequency;
      }
    }
    return 0.0;
  }

  // ---------------------------------------------------------------------
  // Note mapping

  const Notes: seq<string> := ["C", "C#", "D", "D#", "E", "F", "F#", "G", "G#", "A", "A#", "B"]

  /** `NOTES[noteInt % 12]`, which reads as "undefined" for a negative index. */
  function NoteName(noteInt: int): string {
    var i := JsRem(noteInt, 12);
    if 0 <= i then Notes[i] else "undefined"
  }

  /** `Math.floor(noteInt / 12) - 1`. */
  function Octave(noteInt: int): int {
    noteInt / 12 - 1
  }

  datatype NoteReading = NoteReading(note: string, cents: int)

  /**
   * `findClosestNote`. `noteNumber` stands for `12 * log2(frequency / 440) + 69`;
   * the nearest MIDI note is `Round(noteNumber)`.
   */
  function ClosestNote(frequency: real, noteNumber: real): (r: NoteReading)
    ensures frequency == 0.0 ==> r == NoteReading("", 0)
    ensures frequency != 0.0 ==> -50 <= r.cents <= 50
    ensures frequency != 0.0 ==> |r.note| >= 2
    ensures frequency != 0.0 ==>
      var offset := (noteNumber - Round(noteNumber) as real) * 100.0;
      offset - 0.5 < r.cents as real <= offset + 0.5
  {
    if frequency == 0.0 then NoteReading("", 0)
    else
      var noteInt := Round(noteNumber);
      var cents := Round((noteNumber - noteInt as real) * 100.0);
      NoteReading(NoteName(noteInt) + IntText(Octave(noteInt)), cents)
  }

  /**
   * For a non-negative MIDI note the text is a note name and an octave with
   * `noteInt == 12 * (octave + 1) + index of the name`.
   */
  lemma NoteDecomposition(frequency: real, noteNumber: real)
    requires frequency != 0.0 && 0 <= Round(noteNumber)
    ensures var noteInt := Round(noteNumber);
      exists i, octave :: 0 <= i < 12
        && noteInt == 12 * (octave + 1) + i
        && ClosestNote(frequency, noteNumber).note == Notes[i] + IntText(octave)
  {
    var noteInt := Round(noteNumber);
    var i := noteInt % 12;
    var octave := Octave(noteInt);
    assert noteInt == 12 * (octave + 1) + i;
    assert ClosestNote(frequency, noteNumber).note == Notes[i] + IntText(octave);
  }

  /** A pitch above the nearest note reads sharp (cents >= 0), one below it flat. */
  lemma CentsSign(frequency: real, noteNumber: real)
    requires frequency != 0.0
    ensures var offset := noteNumber - Round(noteNumber) as real; var cents := ClosestNote(frequency, noteNumber).cents;
      && (0.0 < offset ==> 0 <= cents)
      && (offset < 0.0 ==> cents <= 0)
      && (0.005 <= offset ==> 0 < cents)
      && (offset < -0.005 ==> cents < 0)
  {
  }

  /** The note text minus its last character (`substring(0, length - 1)`). */
  function BaseNote(note: string): string {
    if note == [] then [] else note[..|note| - 1]
  }

  /** For an octave written with one digit, the note text minus its last character is the name. */
  lemma BaseNoteIsName(frequency: real, noteNumber: real)
    requires frequency != 0.0
    requires 12 <= Round(noteNumber) < 132
    ensures BaseNote(ClosestNote(frequency, noteNumber).note) == NoteName(Round(noteNumber))
    ensures NoteName(Round(noteNumber)) in Notes
  {
    var noteInt := Round(noteNumber);
    var octave := Octave(noteInt);
    assert 0 <= octave < 10;
    var text := IntText(octave);
    assert |text| == 1;
    var note := NoteName(noteInt) + text;
    assert note[..|note| - 1] == NoteName(noteInt);
  }

  /** What the tuner shows after one analysis step. */
  datatype Reading = Reading(detectedNote: Option<string>, detectedFreq: Option<real>, centsOff: int)

  /**
   * The step of `analyzePitch` after detection: on a detection, the note,
   * the frequency, and the cents offset when the note (octave stripped) is
   * the target, else 0; without one, everything cleared.
   */
  function AnalyzeStep(frequency: real, noteNumber: real, targetNote: string): (r: Reading)
    ensures frequency <= 0.0 ==> r == Reading(None, None, 0)
    ensures 0.0 < frequency ==> r.detectedFreq == Some(frequency) && r.detectedNote.Some?
    ensures 0.0 < frequency ==> r.detectedNote == Some(ClosestNote(frequency, noteNumber).note)
    ensures 0.0 < frequency ==> -50 <= r.centsOff <= 50
    ensures 0.0 < frequency && BaseNote(r.detectedNote.value) != targetNote ==> r.centsOff == 0
    ensures 0.0 < frequency && BaseNote(r.detectedNote.value) == targetNote
      ==> r.centsOff == ClosestNote(frequency, noteNumber).cents
  {
    if 0.0 < frequency then
      var reading := ClosestNote(frequency, noteNumber);
      var isTarget := BaseNote(reading.note) == targetNote;
      Reading(Some(reading.note), Some(frequency), if isTarget then reading.cents else 0)
    else
      Reading(None, None, 0)
  }

  /**
   * In the octaves a detection can reach, the target test compares note
   * names: a different name leaves the offset at 0, the same name shows
   * the note's own cents.
   */
  lemma TargetMatchComparesNames(frequency: real, noteNumber: real, targetNote: string)
    requires 0.0 < frequency
    requires 12 <= Round(noteNumber) < 132
    ensures var r := AnalyzeStep(frequency, noteNumber, targetNote);
      r.centsOff == (if NoteName(Round(noteNumber)) == targetNote then ClosestNote(frequency, noteNumber).cents else 0)
  {
    BaseNoteIsName(frequency, noteNumber);
  }

  // ---------------------------------------------------------------------
  // Display classifiers

  /** JavaScript truthiness of the detected note: present and not empty. */
  predicate Shown(detectedNote: Option<string>) {
    detectedNote.Some? && detectedNote.value != ""
  }

  /** `getAccuracyColor`: grey without a note, then bands of |centsOff| at 5, 15, 30 and 50. */
  function AccuracyColor(detectedNote: Option<string>, centsOff: int): (c: string)
    ensures c == "bg-gray-200 h-2" <==> !Shown(detectedNote)
    ensures c == "bg-green-500 h-2" <==> Shown(detectedNote) && Abs(centsOff) < 5
    ensures c == "bg-green-400 h-2" <==> Shown(detectedNote) && 5 <= Abs(centsOff) < 15
    ensures c == "bg-green-300 h-2" <==> Shown(detectedNote) && 15 <= Abs(centsOff) < 30
    ensures c == "bg-yellow-400 h-2" <==> Shown(detectedNote) && 30 <= Abs(centsOff) < 50
    ensures c == "bg-red-500 h-2" <==> Shown(detectedNote) && 50 <= Abs(centsOff)
  {
    if !Shown(detectedNote) then "bg-gray-200 h-2"
    else if Abs(centsOff) < 5 then "bg-green-500 h-2"
    else if Abs(centsOff) < 15 then "bg-green-400 h-2"
    else if Abs(centsOff) < 30 then "bg-green-300 h-2"
    else if Abs(centsOff) < 50 then "bg-yellow-400 h-2"
    else "bg-red-500 h-2"
  }

  /**
   * A detection always shows a note, so it is never drawn grey; and since
   * the offset is at most 50 cents, red means exactly 50.
   */
  lemma DetectionIsColoured(frequency: real, noteNumber: real, targetNote: string)
    requires 0.0 < frequency
    ensures var r := AnalyzeStep(frequency, noteNumber, targetNote);
      && AccuracyColor(r.detectedNote, r.centsOff) != "bg-gray-200 h-2"
      && (AccuracyColor(r.detectedNote, r.centsOff) == "bg-red-500 h-2" ==> Abs(r.centsOff) == 50)
  {
    var r := AnalyzeStep(frequency, noteNumber, targetNote);
    assert |r.detectedNote.value| >= 2;
  }

  /** The messages under the tuner's meter. */
  datatype Message =
    | MicrophoneDenied
    | PressStart
    | NoSound
    | PlayClearNote
    | PlayTarget(note: string)
    | Perfect
    | Sharp(cents: nat)
    | Flat(cents: nat)

  /** The text each message shows. */
  function MessageText(m: Message): (text: string)
    ensures m.PlayTarget? ==> |text| == 5 + |m.note| && text[..5] == "Play " && text[5..] == m.note
    ensures m.Sharp? ==>
      && 16 <= |text| && text[..9] == "Sharp by " && text[|text| - 6..] == " cents"
      && DigitsValue(text[9..|text| - 6]) == m.cents
    ensures m.Flat? ==>
      && 15 <= |text| && text[..8] == "Flat by " && text[|text| - 6..] == " cents"
      && DigitsValue(text[8..|text| - 6]) == m.cents
  {
    match m
    case MicrophoneDenied => "Microphone access denied"
    case PressStart => "Press Start to begin"
    case NoSound => "No sound detected. Try playing louder"
    case PlayClearNote => "Play a clear, sustained note..."
    case PlayTarget(note) => "Play " + note
    case Perfect => "Perfect!"
    case Sharp(cents) => TuningText("Sharp by ", cents)
    case Flat(cents) => TuningText("Flat by ", cents)
  }

  /** `${lead}${cents} cents`, from which the number of cents can be read back. */
  function TuningText(lead: string, cents: nat): (text: string)
    ensures |lead| + 7 <= |text| && text[..|lead|] == lead && text[|text| - 6..] == " cents"
    ensures DigitsValue(text[|lead|..|text| - 6]) == cents
  {
    FramedNumber(lead, cents, " cents");
    lead + NatText(cents) + " cents"
  }

  /**
   * `getFeedbackMessage`: the first of microphone, listening, volume and
   * note checks that fails; then, on the target note, the tuning verdict
   * in bands of 5 cents.
   */
  function FeedbackMessage(permissionDenied: bool, isListening: bool, inputVolume: real,
                           detectedNote: Option<string>, targetNote: string, centsOff: int): (m: Message)
    ensures m.MicrophoneDenied? <==> permissionDenied
    ensures m.PressStart? <==> !permissionDenied && !isListening
    ensures m.NoSound? <==> !permissionDenied && isListening && inputVolume < 5.0
    ensures m.PlayClearNote? <==> !permissionDenied && isListening && 5.0 <= inputVolume && !Shown(detectedNote)
    ensures m.PlayTarget? <==>
      !permissionDenied && isListening && 5.0 <= inputVolume && Shown(detectedNote)
      && BaseNote(detectedNote.value) != targetNote
    ensures m.PlayTarget? ==> m.note == targetNote
    ensures m.Perfect? <==>
      !permissionDenied && isListening && 5.0 <= inputVolume && Shown(detectedNote)
      && BaseNote(detectedNote.value) == targetNote && Abs(centsOff) < 5
    ensures m.Sharp? <==>
      !permissionDenied && isListening && 5.0 <= inputVolume && Shown(detectedNote)
      && BaseNote(detectedNote.value) == targetNote && 5 <= centsOff
    ensures m.Flat? <==>
      !permissionDenied && isListening && 5.0 <= inputVolume && Shown(detectedNote)
      && BaseNote(detectedNote.value) == targetNote && centsOff <= -5
    ensures (m.Sharp? || m.Flat?) ==> m.cents == Abs(centsOff) && 5 <= m.cents
  {
    if permissionDenied then MicrophoneDenied
    else if !isListening then PressStart
    else if inputVolume < 5.0 then NoSound
    else if !Shown(detectedNote) then PlayClearNote
    else if BaseNote(detectedNote.value) != targetNote then PlayTarget(targetNote)
    else if Abs(centsOff) < 5 then Perfect
    else if centsOff > 0 then Sharp(Abs(centsOff))
    else Flat(Abs(centsOff))
  }
}
