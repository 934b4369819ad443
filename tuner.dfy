/**
 * The chromatic tuner ("afinador"): a time-domain autocorrelation pitch
 * detector, a one-pole smoothing filter, the naming of the detected note and
 * the row of eleven markers that shows how far off the note is.
 *
 * Samples, frequencies and correlations are exact reals here. The steps of
 * `freqToNote` that need logarithms, powers and rounding (the note number of
 * a frequency and the deviation in cents) come from a caller-supplied
 * function `quantise`.
 */
module Tuner {
  import opened Wrappers
  import opened Numbers

  const NoteNames: seq<string> := ["C", "C#", "D", "D#", "E", "F", "F#", "G", "G#", "A", "A#", "B"]
  /** Number of markers in the tuner arc, and the index of the centre one. */
  const MarkerCount: nat := 11
  const Centre: nat := 5
  /** Lags searched by the autocorrelation: MinLag <= lag < MaxLag. */
  const MinLag: nat := 20
  const MaxLag: nat := 1000
  /** Weight of the new frequency in the smoothing filter. */
  const Alpha: real := 0.2

  // ---------------------------------------------------------------------------
  // Note naming
  // ---------------------------------------------------------------------------

  /** JavaScript's `n % 12` on integers: the remainder of truncating
      division, which takes the sign of the dividend. */
  function JsRem12(n: int): (r: int)
    ensures -12 < r < 12
    ensures (n - r) % 12 == 0
    ensures n >= 0 ==> r >= 0
    ensures n < 0 ==> r <= 0
  {
    if n >= 0 then n % 12 else -((-n) % 12)
  }

  /** JavaScript's `(n % 12 + 12) % 12` is the mathematical residue of n. */
  lemma ShiftedRemainder(n: int)
    ensures JsRem12(JsRem12(n) + 12) == n % 12
  {
    if n < 0 {
      var m := -n;
      var t := m % 12;
      assert m == 12 * (m / 12) + t;
      assert n == 12 * (-(m / 12) - 1) + (12 - t);
      if t == 0 {
        assert n == 12 * (-(m / 12));
      }
    }
  }

  /** The index into NoteNames, `(noteNum % 12 + 12) % 12`: the residue of
      the note number in [0, 12), negative numbers included. */
  function PitchClass(noteNum: int): (pc: nat)
    ensures pc < 12 && pc == noteNum % 12
  {
    ShiftedRemainder(noteNum);
    JsRem12(JsRem12(noteNum) + 12)
  }

  /** `Math.floor(noteNum / 12) - 1`. Dafny's integer `/` by a positive
      divisor already rounds towards negative infinity. */
  function Octave(noteNum: int): (octave: int)
    ensures 12 * (octave + 1) <= noteNum < 12 * (octave + 2)
  {
    noteNum / 12 - 1
  }

  /** Name and octave of a note. */
  datatype NoteReading = NoteReading(note: string, octave: int)

  /** The naming part of `freqToNote`, from the note number (69 is A4). */
  function FreqToNote(noteNum: int): (r: NoteReading)
    ensures r.note in NoteNames
  {
    NoteReading(NoteNames[PitchClass(noteNum)], Octave(noteNum))
  }

  /** The position of a name in NoteNames. */
  function NameIndex(name: string): (r: Option<nat>)
    ensures r.Some? ==> r.value < 12 && NoteNames[r.value] == name
    ensures r.None? ==> name !in NoteNames
  {
    if name == "C" then Some(0) else if name == "C#" then Some(1)
    else if name == "D" then Some(2) else if name == "D#" then Some(3)
    else if name == "E" then Some(4) else if name == "F" then Some(5)
    else if name == "F#" then Some(6) else if name == "G" then Some(7)
    else if name == "G#" then Some(8) else if name == "A" then Some(9)
    else if name == "A#" then Some(10) else if name == "B" then Some(11)
    else None
  }

  /** The note number a reading names: the inverse of FreqToNote. */
  function NoteNumber(r: NoteReading): Option<int>
  {
    match NameIndex(r.note)
    case Some(pc) => Some(12 * (r.octave + 1) + pc)
    case None => None
  }

  /** The twelve names are distinct. */
  lemma NoteNamesDistinct(i: nat, j: nat)
    requires i < 12 && j < 12 && NoteNames[i] == NoteNames[j]
    ensures i == j
  {
  }

  /** A reading determines its note number: naming loses nothing, for every
      note number, negative ones included. */
  lemma {:induction false} NoteNamingRoundTrip(noteNum: int)
    ensures NoteNumber(FreqToNote(noteNum)) == Some(noteNum)
  {
    var pc, octave := PitchClass(noteNum), Octave(noteNum);
    NameIndexOfName(pc);
    assert noteNum == 12 * (noteNum / 12) + noteNum % 12;
    assert NoteNumber(NoteReading(NoteNames[pc], octave)) == Some(12 * (octave + 1) + pc);
  }

  /** Looking up the name at position pc gives back pc. */
  lemma NameIndexOfName(pc: nat)
    requires pc < 12
    ensures NameIndex(NoteNames[pc]) == Some(pc)
  {
    var idx := NameIndex(NoteNames[pc]);
    assert NoteNames[pc] in NoteNames;
    NoteNamesDistinct(idx.value, pc);
  }

  /** Every name and octave is the reading of exactly the note number
      12 * (octave + 1) + its index. */
  lemma {:induction false} NoteNumberRoundTrip(pc: nat, octave: int)
    requires pc < 12
    ensures FreqToNote(12 * (octave + 1) + pc) == NoteReading(NoteNames[pc], octave)
  {
    DivByTwelve(12 * (octave + 1) + pc, octave + 1, pc);
  }

  /** Quotient and residue by 12 are determined by n = 12 q + r, 0 <= r < 12. */
  lemma DivByTwelve(n: int, q: int, r: int)
    requires n == 12 * q + r && 0 <= r < 12
    ensures n / 12 == q && n % 12 == r
  {
  }

  /** The exponent of `noteFreq = A4 * 2^((noteNum - 69) / 12)`: how many
      octaves the note lies above A4, in twelfths. */
  function NoteFreqExponent(noteNum: int): (e: real)
    ensures e > 0.0 <==> noteNum > 69
    ensures e == 0.0 <==> noteNum == 69
  {
    (noteNum - 69) as real / 12.0
  }

  /** Twelve semitones up adds one to the exponent, so the note frequency
      doubles with each octave. */
  lemma ExponentPerOctave(noteNum: int)
    ensures NoteFreqExponent(noteNum + 12) == NoteFreqExponent(noteNum) + 1.0
  {
  }

  /** Note 69 is A in octave 4, and it is the only note whose frequency
      exponent is 0, so its note frequency is the 440 Hz reference itself. */
  lemma A4IsReference()
    ensures FreqToNote(69) == NoteReading("A", 4)
    ensures NoteFreqExponent(69) == 0.0
    ensures forall n :: NoteFreqExponent(n) == 0.0 ==> n == 69
  {
    NoteNumberRoundTrip(9, 4);
  }

  /** Twelve semitones up is the same name one octave higher. */
  lemma OctaveUp(noteNum: int)
    ensures FreqToNote(noteNum + 12) == FreqToNote(noteNum).(octave := FreqToNote(noteNum).octave + 1)
  {
    var pc := PitchClass(noteNum);
    var o := Octave(noteNum);
    NoteNamingRoundTrip(noteNum);
    assert noteNum == 12 * (o + 1) + pc;
    NoteNumberRoundTrip(pc, o + 1);
  }

  // ---------------------------------------------------------------------------
  // Markers
  // ---------------------------------------------------------------------------

  /** The background a marker has: Default before the first reading (no
      inline colour), Unlit "#2b2b2b", InTune "#ffffff", Near "#999",
      Far "#666", Idle "#555" (after a reset). */
  datatype Shade = Default | Unlit | InTune | Near | Far | Idle

  /** Number of markers lit on one side for a deviation of `cents`. */
  function Steps(cents: int): (n: nat)
    ensures n <= 5
  {
    if IntAbs(cents) / 10 < 5 then IntAbs(cents) / 10 else 5
  }

  /** The shade `updateTunerDisplay` gives marker `i`. */
  function MarkerShade(cents: int, i: int): Shade
  {
    if IntAbs(cents) < 5 then
      if i == Centre then InTune else Unlit
    else
      var d := if cents < 0 then Centre - i else i - Centre;
      if 1 <= d <= Steps(cents) then (if d <= 2 then Near else Far) else Unlit
  }

  /** The marker row after `updateTunerDisplay(…, cents)`. The centre is lit
      exactly when |cents| < 5; other markers light only on the side of the
      deviation, the first two steps Near and the rest Far; nothing is lit for
      5 <= |cents| < 10, and from 50 cents the whole side is lit. */
  function MarkerShades(cents: int): (r: seq<Shade>)
    ensures |r| == MarkerCount
    ensures r[Centre] != Unlit <==> IntAbs(cents) < 5
    ensures r[Centre] == InTune <==> IntAbs(cents) < 5
    ensures forall i :: 0 <= i < MarkerCount ==> r[i] != Default && r[i] != Idle
    ensures forall i :: 0 <= i < MarkerCount && i != Centre ==> r[i] != InTune
    ensures forall i :: 0 <= i < Centre && r[i] != Unlit ==> cents < 0
    ensures forall i :: Centre < i < MarkerCount && r[i] != Unlit ==> cents > 0
    ensures forall i :: 0 <= i < MarkerCount && r[i] == Near ==> 1 <= IntAbs(i - Centre) <= 2
    ensures forall i :: 0 <= i < MarkerCount && r[i] == Far ==> 3 <= IntAbs(i - Centre) <= 5
    ensures 5 <= IntAbs(cents) < 10 ==> forall i :: 0 <= i < MarkerCount ==> r[i] == Unlit
    ensures IntAbs(cents) >= 50 ==>
      forall i :: 0 <= i < MarkerCount && i != Centre ==> (r[i] != Unlit <==> (i < Centre <==> cents < 0))
  {
    seq(MarkerCount, i => MarkerShade(cents, i))
  }

  /** Number of lit markers in a row. */
  function CountLit(r: seq<Shade>): nat
  {
    if r == [] then 0 else CountLit(r[..|r| - 1]) + (if r[|r| - 1] != Unlit then 1 else 0)
  }

  /** A row lit exactly on [lo, hi) has hi - lo lit markers. */
  lemma {:induction false} CountLitRange(r: seq<Shade>, lo: nat, hi: nat)
    requires lo <= hi
    requires forall i :: 0 <= i < |r| ==> (r[i] != Unlit <==> lo <= i < hi)
    ensures CountLit(r) == if hi <= |r| then hi - lo else if lo <= |r| then |r| - lo else 0
  {
    if r != [] {
      var p := r[..|r| - 1];
      assert forall i :: 0 <= i < |p| ==> p[i] == r[i];
      CountLitRange(p, lo, hi);
    }
  }

  /** The lit markers form one contiguous block next to the centre: one marker
      when in tune, otherwise Steps(cents) markers on the side of the deviation. */
  lemma LitMarkers(cents: int)
    ensures CountLit(MarkerShades(cents)) == if IntAbs(cents) < 5 then 1 else Steps(cents)
    ensures IntAbs(cents) >= 5 && cents > 0 ==>
      forall i :: 0 <= i < MarkerCount ==> (MarkerShades(cents)[i] != Unlit <==> Centre < i <= Centre + Steps(cents))
    ensures IntAbs(cents) >= 5 && cents < 0 ==>
      forall i :: 0 <= i < MarkerCount ==> (MarkerShades(cents)[i] != Unlit <==> Centre - Steps(cents) <= i < Centre)
  {
    var r := MarkerShades(cents);
    if IntAbs(cents) < 5 {
      CountLitRange(r, Centre, Centre + 1);
    } else if cents > 0 {
      CountLitRange(r, Centre + 1, Centre + 1 + Steps(cents));
    } else {
      CountLitRange(r, Centre - Steps(cents), Centre);
    }
  }

  // ---------------------------------------------------------------------------
  // Smoothing
  // ---------------------------------------------------------------------------

  /** `smoothFreq`: the first frequency passes through; later ones move the
      previous output a fifth of the way towards the new frequency. */
  function Smooth(last: Option<real>, freq: real): (r: real)
    ensures last.None? ==> r == freq
    ensures last.Some? ==> r - freq == (1.0 - Alpha) * (last.value - freq)
    ensures last.Some? ==>
      (last.value <= freq ==> last.value <= r <= freq) &&
      (freq <= last.value ==> freq <= r <= last.value)
  {
    match last
    case None => freq
    case Some(prev) => Alpha * freq + (1.0 - Alpha) * prev
  }

  /** The filter output after feeding the same frequency n times. */
  function SmoothRepeat(last: real, freq: real, n: nat): real
    decreases n
  {
    if n == 0 then last else SmoothRepeat(Smooth(Some(last), freq), freq, n - 1)
  }

  function Pow(x: real, n: nat): real
    decreases n
  {
    if n == 0 then 1.0 else x * Pow(x, n - 1)
  }

  /** On a constant input the error shrinks by the factor 0.8 per call. */
  lemma {:induction false} SmoothRepeatError(last: real, freq: real, n: nat)
    ensures SmoothRepeat(last, freq, n) - freq == Pow(1.0 - Alpha, n) * (last - freq)
    decreases n
  {
    if n > 0 {
      var next := Smooth(Some(last), freq);
      SmoothRepeatError(next, freq, n - 1);
      assert Pow(1.0 - Alpha, n) == (1.0 - Alpha) * Pow(1.0 - Alpha, n - 1);
    }
  }

  /** 0.8^n * (1 + n / 4) <= 1, so 0.8^n tends to 0. */
  lemma {:induction false} PowDecay(n: nat)
    ensures 0.0 < Pow(1.0 - Alpha, n)
    ensures Pow(1.0 - Alpha, n) * (1.0 + 0.25 * n as real) <= 1.0
    decreases n
  {
    if n > 0 {
      PowDecay(n - 1);
      var p := Pow(1.0 - Alpha, n - 1);
      assert Pow(1.0 - Alpha, n) == 0.8 * p;
      assert 0.8 * (1.0 + 0.25 * n as real) <= 1.0 + 0.25 * (n - 1) as real;
      assert 0.8 * p * (1.0 + 0.25 * n as real) <= p * (1.0 + 0.25 * (n - 1) as real);
    }
  }

  /** Feeding one frequency n times brings the output within
      |last - freq| / (1 + n / 4) of it: the filter converges to a constant input. */
  lemma SmoothingConverges(last: real, freq: real, n: nat)
    ensures Abs(SmoothRepeat(last, freq, n) - freq) * (1.0 + 0.25 * n as real) <= Abs(last - freq)
  {
    SmoothRepeatError(last, freq, n);
    PowDecay(n);
    var p, e, k := Pow(1.0 - Alpha, n), last - freq, 1.0 + 0.25 * n as real;
    AbsScale(p, e);
    var a := Abs(e);
    var x := SmoothRepeat(last, freq, n) - freq;
    assert x == p * e;
    assert Abs(x) == p * a;
    ScaleBelow(p * k, 1.0, a);
    assert p * a * k == (p * k) * a;
  }

  /** |p e| = p |e| for p > 0. */
  lemma AbsScale(p: real, e: real)
    requires p > 0.0
    ensures Abs(p * e) == p * Abs(e)
  {
  }

  /** Scaling by a non-negative factor keeps the order. */
  lemma ScaleBelow(x: real, y: real, a: real)
    requires x <= y && a >= 0.0
    ensures x * a <= y * a
  {
  }

  // ---------------------------------------------------------------------------
  // Pitch detection
  // ---------------------------------------------------------------------------

  /** Sum of the squares of b[..k]. */
  function SumSquares(b: seq<real>, k: nat): (s: real)
    requires k <= |b|
    ensures s >= 0.0
    decreases k
  {
    if k == 0 then 0.0 else SumSquares(b, k - 1) + b[k - 1] * b[k - 1]
  }

  /** The RMS gate, `sqrt(sum / length) < 0.01`, without the square root. An
      empty buffer is not silent: the source divides 0 by 0, and NaN < 0.01
      is false. */
  predicate Silent(b: seq<real>)
    ensures Silent(b) ==> |b| > 0
  {
    SumSquares(b, |b|) < 0.0001 * |b| as real
  }

  /** For a non-empty buffer, Silent is the source's gate: with rms the square
      root of the mean square, Silent holds exactly when rms < 0.01. */
  lemma SilentIsRmsGate(b: seq<real>, rms: real)
    requires |b| > 0 && rms >= 0.0
    requires rms * rms == SumSquares(b, |b|) / |b| as real
    ensures Silent(b) <==> rms < 0.01
  {
    var m, s := |b| as real, SumSquares(b, |b|);
    assert rms * rms * m == s;
    ScaleStrict(rms * rms, 0.0001, m);
    SquareBelow(rms, 0.01);
  }

  /** x < y exactly when x m < y m, for m > 0. */
  lemma ScaleStrict(x: real, y: real, m: real)
    requires m > 0.0
    ensures x < y <==> x * m < y * m
  {
    assert (y - x) * m == y * m - x * m;
  }

  /** For non-negative x and c, x < c exactly when x² < c². */
  lemma SquareBelow(x: real, c: real)
    requires x >= 0.0 && c >= 0.0
    ensures x < c <==> x * x < c * c
  {
    assert c * c - x * x == (c - x) * (c + x);
    if x < c {
      ScaleStrict(0.0, c - x, c + x);
    } else {
      ScaleBelow(0.0, x - c, c + x);
      assert (x - c) * (c + x) == x * x - c * c;
    }
  }

  /** Sum of b[i] * b[i + lag] for i < k. */
  function LagProducts(b: seq<real>, lag: nat, k: nat): real
    requires k == 0 || k + lag <= |b|
    decreases k
  {
    if k == 0 then 0.0 else LagProducts(b, lag, k - 1) + b[k - 1] * b[k - 1 + lag]
  }

  /** Autocorrelation of the buffer at a lag; 0 when the lag reaches past the
      buffer, where the source's inner loop does not run. */
  function Correlation(b: seq<real>, lag: nat): real
  {
    LagProducts(b, lag, if |b| > lag then |b| - lag else 0)
  }

  /** No lag in the search range has positive correlation. */
  predicate NoPeak(b: seq<real>)
  {
    forall lag: nat :: MinLag <= lag < MaxLag ==> Correlation(b, lag) <= 0.0
  }

  /** The lag the detector picks: positive correlation, maximal over the
      search range, and the first lag with that correlation. */
  predicate IsBestLag(b: seq<real>, lag: nat)
  {
    MinLag <= lag < MaxLag && Correlation(b, lag) > 0.0 &&
    (forall l: nat :: MinLag <= l < MaxLag ==> Correlation(b, l) <= Correlation(b, lag)) &&
    (forall l: nat :: MinLag <= l < lag ==> Correlation(b, l) < Correlation(b, lag))
  }

  /** There is at most one best lag. */
  lemma BestLagUnique(b: seq<real>, l1: nat, l2: nat)
    requires IsBestLag(b, l1) && IsBestLag(b, l2)
    ensures l1 == l2
  {
  }

  /** The energy loop of `detectPitch`. */
  method Energy(b: seq<real>) returns (sum: real)
    ensures sum == SumSquares(b, |b|)
  {
    sum := 0.0;
    var i := 0;
    while i < |b|
      invariant 0 <= i <= |b|
      invariant sum == SumSquares(b, i)
    {
      sum := sum + b[i] * b[i];
      i := i + 1;
    }
  }

  /** The inner correlation loop of `detectPitch`. */
  method Autocorrelate(b: seq<real>, lag: nat) returns (corr: real)
    ensures corr == Correlation(b, lag)
  {
    corr := 0.0;
    var i := 0;
    while i < |b| - lag
      invariant 0 <= i && (|b| > lag ==> i <= |b| - lag) && (|b| <= lag ==> i == 0)
      invariant corr == LagProducts(b, lag, i)
    {
      corr := corr + b[i] * b[i + lag];
      i := i + 1;
    }
  }

  /** The lag search of `detectPitch`: -1 when no lag has positive
      correlation, otherwise the best lag and its correlation. */
  method FindBestLag(b: seq<real>) returns (bestOffset: int, bestCorr: real)
    ensures bestOffset == -1 <==> NoPeak(b)
    ensures bestOffset == -1 ==> bestCorr == 0.0
    ensures bestOffset != -1 ==> bestOffset >= 0 && IsBestLag(b, bestOffset) && bestCorr == Correlation(b, bestOffset)
  {
    bestOffset, bestCorr := -1, 0.0;
    var offset: nat := MinLag;
    while offset < MaxLag
      invariant MinLag <= offset <= MaxLag
      invariant bestOffset == -1 ==>
        bestCorr == 0.0 && forall l: nat :: MinLag <= l < offset ==> Correlation(b, l) <= 0.0
      invariant bestOffset != -1 ==>
        MinLag <= bestOffset < offset && bestCorr == Correlation(b, bestOffset) && bestCorr > 0.0 &&
        (forall l: nat :: MinLag <= l < offset ==> Correlation(b, l) <= bestCorr) &&
        (forall l: nat :: MinLag <= l < bestOffset ==> Correlation(b, l) < bestCorr)
    {
      var corr := Autocorrelate(b, offset);
      if corr > bestCorr {
        bestCorr, bestOffset := corr, offset;
      }
      offset := offset + 1;
    }
    if bestOffset != -1 {
      assert !NoPeak(b) by {
        assert Correlation(b, bestOffset) > 0.0;
      }
    }
  }

  /** The note number and cents deviation of a frequency:
      `round(12 * log2(f / 440) + 69)` and the rounded cents from that note. */
  datatype Quantised = Quantised(noteNum: int, cents: int)

  /** What one `detectPitch` pass does. */
  datatype PitchOutcome =
    | NotRunning
    | Silence
    | NoPeakFound
    | Detected(lag: nat, frequency: real, reading: NoteReading, cents: int)

  /** The tuner's display and filter state. */
  class PitchTracker {
    var markers: array<Shade>
    var noteLabel: string
    var lastFreq: Option<real>
    var running: bool

    ghost predicate Valid()
      reads this
    {
      markers.Length == MarkerCount
    }

    /** `createMarkers` with the tuner arc present; the microphone is off. */
    constructor (initialLabel: string)
      ensures Valid() && fresh(markers)
      ensures markers[..] == seq(MarkerCount, _ => Default)
      ensures noteLabel == initialLabel && lastFreq == None && !running
    {
      markers := new Shade[MarkerCount](_ => Default);
      noteLabel := initialLabel;
      lastFreq := None;
      running := false;
    }

    /** `resetTuner` */
    method ResetTuner()
      requires Valid()
      modifies this`noteLabel, markers
      ensures Valid() && noteLabel == "--"
      ensures markers[..] == seq(MarkerCount, _ => Idle)
    {
      var i := 0;
      while i < markers.Length
        invariant 0 <= i <= markers.Length
        invariant forall k :: 0 <= k < i ==> markers[k] == Idle
      {
        markers[i] := Idle;
        i := i + 1;
      }
      noteLabel := "--";
    }

    /** `updateTunerDisplay`: shows the note name and lights the markers
      for the deviation. */
    method UpdateTunerDisplay(note: string, cents: int)
      requires Valid()
      modifies this`noteLabel, markers
      ensures Valid() && noteLabel == note
      ensures markers[..] == MarkerShades(cents)
    {
      var i := 0;
      while i < markers.Length
        invariant 0 <= i <= markers.Length
        invariant forall k :: 0 <= k < i ==> markers[k] == Unlit
      {
        markers[i] := Unlit;
        i := i + 1;
      }
      if IntAbs(cents) < 5 {
        markers[Centre] := InTune;
      } else {
        var steps := Steps(cents);
        var j := 1;
        while j <= steps
          invariant 1 <= j <= steps + 1
          invariant forall k :: 0 <= k < MarkerCount ==>
            markers[k] == (if MarkerShade(cents, k) != Unlit && IntAbs(k - Centre) < j then MarkerShade(cents, k) else Unlit)
        {
          var idx := if cents < 0 then Centre - j else Centre + j;
          markers[idx] := if j <= 2 then Near else Far;
          j := j + 1;
        }
      }
      assert forall k :: 0 <= k < MarkerCount ==> markers[k] == MarkerShades(cents)[k];
      noteLabel := note;
    }

    /** `smoothFreq` */
    method SmoothFreq(freq: real) returns (r: real)
      modifies this`lastFreq
      ensures r == Smooth(old(lastFreq), freq) && lastFreq == Some(r)
    {
      if lastFreq.None? {
        lastFreq := Some(freq);
        return freq;
      }
      lastFreq := Some(Alpha * freq + (1.0 - Alpha) * lastFreq.value);
      r := lastFreq.value;
    }

    /** `startMic` once the microphone has been granted. */
    method StartMic()
      modifies this`running
      ensures running
    {
      running := true;
    }

    /** `stopMic`: stops detection and resets the display; the filter keeps
        its last output. */
    method StopMic()
      requires Valid()
      modifies this`running, this`noteLabel, markers
      ensures Valid() && !running && noteLabel == "--"
      ensures markers[..] == seq(MarkerCount, _ => Idle)
    {
      running := false;
      ResetTuner();
    }

    /** `detectPitch`: one pass over a buffer of samples. */
    method DetectPitch(buffer: seq<real>, sampleRate: real, quantise: real -> Quantised)
      returns (outcome: PitchOutcome)
      requires Valid()
      modifies this`noteLabel, this`lastFreq, markers
      ensures Valid()
      // microphone off: nothing happens
      ensures !running ==> (outcome == NotRunning &&
        noteLabel == old(noteLabel) && lastFreq == old(lastFreq) && markers[..] == old(markers[..]))
      // too quiet: the display is reset and no estimate is produced
      ensures running && Silent(buffer) ==> (outcome == Silence &&
        noteLabel == "--" && markers[..] == seq(MarkerCount, _ => Idle) && lastFreq == old(lastFreq))
      // no positive correlation: nothing is updated
      ensures running && !Silent(buffer) && NoPeak(buffer) ==> (outcome == NoPeakFound &&
        noteLabel == old(noteLabel) && lastFreq == old(lastFreq) && markers[..] == old(markers[..]))
      // otherwise: the best lag gives the raw frequency, which is smoothed, named and shown
      ensures running && !Silent(buffer) && !NoPeak(buffer) ==>
        outcome.Detected? && IsBestLag(buffer, outcome.lag) &&
        outcome.frequency == Smooth(old(lastFreq), sampleRate / outcome.lag as real) &&
        lastFreq == Some(outcome.frequency) &&
        outcome.reading == FreqToNote(quantise(outcome.frequency).noteNum) &&
        outcome.cents == quantise(outcome.frequency).cents &&
        noteLabel == outcome.reading.note && markers[..] == MarkerShades(outcome.cents)
    {
      if !running {
        return NotRunning;
      }
      var sum := Energy(buffer);
      if sum < 0.0001 * |buffer| as real {
        ResetTuner();
        return Silence;
      }
      var bestOffset, bestCorr := FindBestLag(buffer);
      if bestOffset == -1 {
        return NoPeakFound;
      }
      var rawFreq := sampleRate / bestOffset as real;
      var freq := SmoothFreq(rawFreq);
      var q := quantise(freq);
      var reading := FreqToNote(q.noteNum);
      UpdateTunerDisplay(reading.note, q.cents);
      outcome := Detected(bestOffset, freq, reading, q.cents);
    }
  }
}
