/**
 * Transfer-function library of the amplifier model (src/js/core/gain-math.js).
 * All levels are in dBV and are modelled as mathematical reals.
 */
module GainMath {

  /**
   * The two transcendental functions the source takes from JavaScript's `Math`
   * object. They are inputs of the model; `TanhLaws` and `Log10Laws` state the
   * only facts about them that the proofs use.
   */
  datatype Libm = Libm(tanh: real -> real, log10: real -> real)

  ghost predicate TanhLaws(tanh: real -> real) {
    && tanh(0.0) == 0.0
    && (forall x :: -1.0 < tanh(x) < 1.0)
    && (forall x, y :: x + y == 0.0 ==> tanh(y) == -tanh(x))
    && (forall x, y :: x < y ==> tanh(x) < tanh(y))
    && (forall x :: 0.0 <= x ==> tanh(x) <= x)
  }

  /** log10(1) == 0 and log10(10) == 1. */
  ghost predicate Log10Anchors(log10: real -> real) {
    log10(1.0) == 0.0 && log10(10.0) == 1.0
  }

  /** log10 is strictly increasing on the positive reals. */
  ghost predicate Log10Increasing(log10: real -> real) {
    forall x, y :: 0.0 < x < y ==> log10(x) < log10(y)
  }

  /** log10 turns products of positive reals into sums. */
  ghost predicate Log10Product(log10: real -> real) {
    forall x, y, z :: 0.0 < x && 0.0 < y && z == x * y ==> log10(z) == log10(x) + log10(y)
  }

  ghost predicate Log10Laws(log10: real -> real) {
    Log10Anchors(log10) && Log10Increasing(log10) && Log10Product(log10)
  }

  ghost predicate Lawful(m: Libm) {
    TanhLaws(m.tanh) && Log10Laws(m.log10)
  }

  /** Audio (logarithmic) taper pot: position 0..10 to dB, floored at -60 at position 0. */
  function LogTaper(m: Libm, value: real): real {
    if value <= 0.0 then -60.0
    else 20.0 * m.log10((value / 10.0) * (value / 10.0))
  }

  /** Linear taper pot: position 0..10 to -10..+10 dB. */
  function LinearTaper(value: real): real {
    (value / 10.0) * 20.0 - 10.0
  }

  /** The result of a clipping law: output level, input level and compression amount. */
  datatype Clip = Clip(clamped: real, raw: real, drive: real)

  /**
   * tanh soft clipper: linear up to the onset `threshold - knee`, then the excess
   * is compressed into at most `knee` dB. With `knee == 0` the source divides by
   * zero, gets tanh(+Infinity) == 1 and multiplies it by 0, which is a hard clip at
   * the onset; the model writes that case out.
   */
  function SoftClip(m: Libm, level: real, threshold: real, knee: real): Clip {
    var onset := threshold - knee;
    if level <= onset then Clip(level, level, 0.0)
    else
      var excess := level - onset;
      var compressed := if knee == 0.0 then 0.0 else m.tanh(excess / knee) * knee;
      var clamped := onset + compressed;
      Clip(clamped, level, level - clamped)
  }

  /** Default asymmetry of `asymSoftClip`, the one its caller relies on. */
  const DefaultAsymmetry: real := 0.15

  /** The threshold `asymSoftClip` hands to `softClip` for a level of this sign. */
  function AdjustedThreshold(level: real, threshold: real, asymmetry: real): real {
    if level >= 0.0 then threshold * (1.0 - asymmetry) else threshold * (1.0 + asymmetry)
  }

  /** Asymmetric soft clip of the cathode-biased output stage. */
  function AsymSoftClip(m: Libm, level: real, threshold: real, knee: real, asymmetry: real): Clip {
    SoftClip(m, level, AdjustedThreshold(level, threshold, asymmetry), knee)
  }

  /** Diode clip: a soft clip with a fixed 2 dB knee; `kind` is accepted and ignored. */
  function DiodeClip(m: Libm, level: real, threshold: real, kind: string): Clip {
    SoftClip(m, level, threshold, 2.0)
  }

  /** LED colour of a stage: a first-match cascade on drive, then on headroom. */
  function GetClipState(drive: real, level: real, threshold: real): string {
    if drive > 6.0 then "red"
    else if drive > 3.0 then "orange"
    else if drive > 0.5 then "yellow"
    else if level > threshold - 10.0 then "green"
    else ""
  }

  /** Weighted tone-stack deviation from the centre position 5. */
  function TonestackMod(bass: real, middle: real, treble: real): real {
    (bass - 5.0) * 0.3 + (middle - 5.0) * 1.0 + (treble - 5.0) * 0.4
  }

  /** Presence/resonance negative-feedback curve. */
  function NfbGain(m: Libm, value: real): real {
    m.tanh((value - 5.0) / 5.0) * 3.0
  }

  /** Deprecated; returns the master taper unchanged whatever the era. */
  function EraModifiedTaper<E>(masterTaper: real, era: E): real {
    masterTaper
  }

  /** Pussy Trimmer: a pot to ground, -40 dB at 0, 0 dB at 10 and above. */
  function PussyTrimTaper(m: Libm, value: real): real {
    if value <= 0.0 then -40.0
    else if value >= 10.0 then 0.0
    else 20.0 * m.log10(value / 10.0)
  }

  /** `Math.round(x * 10) / 10`: `Math.round` rounds half-way cases up. */
  function RoundLevel(x: real): real {
    (10.0 * x + 0.5).Floor as real / 10.0
  }

  /** Meter bar height in percent, clamped to 0..100. */
  function MeterBarHeight(level: real, minLevel: real, range: real): (h: real)
    requires range != 0.0
    ensures 0.0 <= h <= 100.0
    ensures 0.0 <= (level - minLevel) / range * 100.0 <= 100.0 ==> h == (level - minLevel) / range * 100.0
    ensures (level - minLevel) / range * 100.0 <= 0.0 ==> h == 0.0
    ensures (level - minLevel) / range * 100.0 >= 100.0 ==> h == 100.0
  {
    var pct := (level - minLevel) / range * 100.0;
    var capped := if pct < 100.0 then pct else 100.0;
    if capped > 0.0 then capped else 0.0
  }

  // ---------------------------------------------------------------- tapers

  lemma LogTaperEnds(m: Libm)
    requires Log10Anchors(m.log10)
    ensures forall v :: v <= 0.0 ==> LogTaper(m, v) == -60.0
    ensures LogTaper(m, 10.0) == 0.0
  {
    assert (10.0 / 10.0) * (10.0 / 10.0) == 1.0;
  }

  /** Above position 0 the audio taper is strictly increasing. */
  lemma LogTaperIncreasing(m: Libm, v: real, w: real)
    requires Log10Increasing(m.log10)
    requires 0.0 < v < w
    ensures LogTaper(m, v) < LogTaper(m, w)
  {
    SquareIncreasing(v / 10.0, w / 10.0);
    assert m.log10((v / 10.0) * (v / 10.0)) < m.log10((w / 10.0) * (w / 10.0));
  }

  lemma SquareIncreasing(a: real, b: real)
    requires 0.0 < a < b
    ensures 0.0 < a * a < b * b
  {
    assert a * a < a * b;
  }

  lemma ScaleByPositive(t: real, n: real, e: real, k: real)
    requires k > 0.0 && 0.0 < t < 1.0 && t <= n && n == e / k
    ensures 0.0 < t * k < k && t * k <= e
  {
    assert n * k == e;
  }

  /**
   * The -60 dB floor applies only at position 0: just above it the formula is far
   * lower, so the taper is not monotone over 0..10 (position 0.1, one knob step,
   * gives -80 dB).
   */
  lemma LogTaperDipsBelowFloor(m: Libm)
    requires Log10Anchors(m.log10) && Log10Product(m.log10)
    ensures LogTaper(m, 0.1) == -80.0
    ensures LogTaper(m, 0.1) < LogTaper(m, 0.0)
  {
    var l := m.log10;
    assert l(10.0 * 0.1) == l(10.0) + l(0.1);
    assert l(0.1) == -1.0;
    assert l(0.1 * 0.1) == l(0.1) + l(0.1);
    assert l(0.01 * 0.01) == l(0.01) + l(0.01);
    assert (0.1 / 10.0) * (0.1 / 10.0) == 0.0001;
  }

  lemma LinearTaperPoints()
    ensures LinearTaper(0.0) == -10.0 && LinearTaper(5.0) == 0.0 && LinearTaper(10.0) == 10.0
  {
  }

  /** The trim taper never boosts: its result is at most 0 dB. */
  lemma PussyTrimTaperNeverPositive(m: Libm, v: real)
    requires Log10Anchors(m.log10) && Log10Increasing(m.log10)
    ensures v <= 0.0 ==> PussyTrimTaper(m, v) == -40.0
    ensures v >= 10.0 ==> PussyTrimTaper(m, v) == 0.0
    ensures 0.0 < v < 10.0 ==> PussyTrimTaper(m, v) < 0.0
    ensures PussyTrimTaper(m, v) <= 0.0
  {
    if 0.0 < v < 10.0 {
      assert m.log10(v / 10.0) < m.log10(1.0);
    }
  }

  /** Below position 0.1 the trim taper falls under the -40 dB it gives at position 0. */
  lemma TrimBelowFloor(m: Libm, v: real)
    requires Log10Laws(m.log10)
    requires 0.0 < v < 0.1
    ensures PussyTrimTaper(m, v) < -40.0
  {
    var l := m.log10;
    assert l(0.1 * 10.0) == l(0.1) + l(10.0);
    assert l(0.01 * 10.0) == l(0.01) + l(10.0);
    assert l(v / 10.0) < l(0.01);
  }

  // ---------------------------------------------------------------- clipping

  /** At or below the onset the clipper passes the level through untouched. */
  lemma SoftClipBelowOnset(m: Libm, level: real, threshold: real, knee: real)
    requires level <= threshold - knee
    ensures SoftClip(m, level, threshold, knee) == Clip(level, level, 0.0)
  {
  }

  /**
   * Above the onset, with a positive knee, the output lies strictly between the
   * onset and the threshold and never above the input, so the drive is the
   * non-negative amount removed.
   */
  lemma SoftClipCompresses(m: Libm, level: real, threshold: real, knee: real)
    requires TanhLaws(m.tanh)
    requires knee > 0.0 && level > threshold - knee
    ensures var c := SoftClip(m, level, threshold, knee);
      && threshold - knee < c.clamped < threshold
      && c.clamped <= level
      && c.raw == level
      && c.drive == level - c.clamped >= 0.0
  {
    PositiveQuotient(level - (threshold - knee), knee);
    assert m.tanh(0.0) < m.tanh((level - (threshold - knee)) / knee);
    ScaleByPositive(m.tanh((level - (threshold - knee)) / knee), (level - (threshold - knee)) / knee,
                    level - (threshold - knee), knee);
    var t := m.tanh((level - (threshold - knee)) / knee);
    assert t * knee < knee;
    assert SoftClip(m, level, threshold, knee).clamped == (threshold - knee) + t * knee;
    assert SoftClip(m, level, threshold, knee).clamped < threshold;
  }

  lemma PositiveQuotient(e: real, k: real)
    requires e > 0.0 && k > 0.0
    ensures e / k > 0.0
  {
  }

  /** Whatever the level, a positive-knee clipper never raises it and stays below its threshold. */
  lemma SoftClipBounded(m: Libm, level: real, threshold: real, knee: real)
    requires TanhLaws(m.tanh)
    requires knee > 0.0
    ensures var c := SoftClip(m, level, threshold, knee);
      && c.raw == level
      && c.clamped <= level
      && c.clamped < threshold
      && c.drive == level - c.clamped >= 0.0
  {
    if level > threshold - knee {
      SoftClipCompresses(m, level, threshold, knee);
    }
  }

  /** `asymSoftClip` clips positive levels at threshold*(1-a) and negative ones at threshold*(1+a). */
  lemma AsymSoftClipDelegates(m: Libm, level: real, threshold: real, knee: real, a: real)
    ensures level >= 0.0 ==> AsymSoftClip(m, level, threshold, knee, a) == SoftClip(m, level, threshold * (1.0 - a), knee)
    ensures level < 0.0 ==> AsymSoftClip(m, level, threshold, knee, a) == SoftClip(m, level, threshold * (1.0 + a), knee)
  {
  }

  /** `diodeClip` ignores its type argument and is always a 2 dB-knee soft clip. */
  lemma DiodeClipIgnoresType(m: Libm, level: real, threshold: real, k1: string, k2: string)
    ensures DiodeClip(m, level, threshold, k1) == DiodeClip(m, level, threshold, k2)
    ensures DiodeClip(m, level, threshold, k1) == SoftClip(m, level, threshold, 2.0)
  {
  }

  // ---------------------------------------------------------------- indicators and offsets

  /** The LED colour, case by case, each colour with the exact condition that gives it. */
  lemma GetClipStateCases(drive: real, level: real, threshold: real)
    ensures GetClipState(drive, level, threshold) == "red" <==> drive > 6.0
    ensures GetClipState(drive, level, threshold) == "orange" <==> 3.0 < drive <= 6.0
    ensures GetClipState(drive, level, threshold) == "yellow" <==> 0.5 < drive <= 3.0
    ensures GetClipState(drive, level, threshold) == "green" <==> drive <= 0.5 && level > threshold - 10.0
    ensures GetClipState(drive, level, threshold) == "" <==> drive <= 0.5 && level <= threshold - 10.0
  {
  }

  lemma GetClipStateExample()
    ensures GetClipState(0.0, 30.0, 38.0) == "green"
  {
  }

  /**
   * The tone-stack offset is 0 at noon and +-8.5 dB at the extremes (not the
   * +-4.5 dB printed as expected values by scripts/test-math.mjs).
   */
  lemma TonestackModPoints()
    ensures TonestackMod(5.0, 5.0, 5.0) == 0.0
    ensures TonestackMod(10.0, 10.0, 10.0) == 8.5
    ensures TonestackMod(0.0, 0.0, 0.0) == -8.5
  {
  }

  /** NFB curve: 0 at noon, strictly increasing, odd about 5 and strictly inside (-3, 3). */
  lemma NfbGainShape(m: Libm, v: real, w: real, d: real)
    requires TanhLaws(m.tanh)
    ensures NfbGain(m, 5.0) == 0.0
    ensures v < w ==> NfbGain(m, v) < NfbGain(m, w)
    ensures NfbGain(m, 5.0 + d) == -NfbGain(m, 5.0 - d)
    ensures -3.0 < NfbGain(m, v) < 3.0
  {
    assert (5.0 - 5.0) / 5.0 == 0.0;
    assert (5.0 + d - 5.0) / 5.0 + (5.0 - d - 5.0) / 5.0 == 0.0;
    if v < w {
      assert (v - 5.0) / 5.0 < (w - 5.0) / 5.0;
      assert m.tanh((v - 5.0) / 5.0) < m.tanh((w - 5.0) / 5.0);
    }
  }

  lemma EraModifiedTaperIgnoresEra<E>(t: real, e1: E, e2: E)
    ensures EraModifiedTaper(t, e1) == EraModifiedTaper(t, e2) == t
  {
  }

  // ---------------------------------------------------------------- rounding

  /** Rounding to 0.1 moves a value by at most 0.05. */
  lemma RoundLevelClose(x: real)
    ensures x - 0.05 < RoundLevel(x) <= x + 0.05
  {
    var f := (10.0 * x + 0.5).Floor;
    assert f as real <= 10.0 * x + 0.5 < f as real + 1.0;
  }

  lemma RoundLevelMonotone(x: real, y: real)
    requires x <= y
    ensures RoundLevel(x) <= RoundLevel(y)
  {
    assert (10.0 * x + 0.5).Floor <= (10.0 * y + 0.5).Floor;
  }

  /** A value with one decimal (an integer number of tenths) is its own rounding. */
  lemma RoundLevelTenths(k: int)
    ensures RoundLevel(k as real / 10.0) == k as real / 10.0
  {
    assert 10.0 * (k as real / 10.0) + 0.5 == k as real + 0.5;
    assert (k as real + 0.5).Floor == k;
  }

  lemma RoundLevelNonNegative(x: real)
    requires x >= 0.0
    ensures RoundLevel(x) >= 0.0
  {
    RoundLevelMonotone(0.0, x);
    RoundLevelTenths(0);
  }
}
