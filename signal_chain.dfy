/**
 * The signal-chain evaluator (src/js/core/signal-chain.js): one running level is
 * threaded through a fixed, hand-ordered list of stages and every stage appends a
 * rounded record to the trace.
 */
module SignalChain {
  import opened Wrappers
  import opened GainMath
  import opened AmpConfig
  import JsArray

  /** One record of the trace; level, gain and drive are rounded to 0.1 dB. */
  datatype Stage = Stage(name: string, level: real, gain: real, drive: real, section: Section, threshold: Option<real>)

  /** The evaluator's result; the two snapshots are unrounded. */
  datatype ChainResult = ChainResult(stages: seq<Stage>, preampOutput: real, finalOutput: real)

  /** `addStage`: the record it pushes. */
  function MakeStage(name: string, level: real, gain: real, drive: real, section: Section, threshold: Option<real>): Stage {
    Stage(name, RoundLevel(level), RoundLevel(gain), RoundLevel(drive), section, threshold)
  }

  /** The bright-switch boost added into the Gain 1 / Gain 2 stage. */
  function BrightBoostFor(b: Bright): real {
    match b
    case Off => 0.0
    case Subtle => BrightBoost.subtle
    case Aggressive => BrightBoost.aggressive
  }

  // ---------------------------------------------------------------- specification of the fold

  /** The fold's state between stages: the records so far and the current unrounded level. */
  datatype Trace = Trace(stages: seq<Stage>, level: real)

  /** Set the running level and append its record. */
  function Emit(t: Trace, name: string, level: real, gain: real, drive: real, section: Section, threshold: Option<real>): Trace {
    Trace(t.stages + [MakeStage(name, level, gain, drive, section, threshold)], level)
  }

  /** A tube gain stage: add its gain, then soft-clip at its threshold and knee. */
  function TubeStep(m: Libm, t: Trace, tube: TubeStage, section: Section): Trace
    requires tube.threshold.Some? && tube.knee.Some?
  {
    var c := SoftClip(m, t.level + tube.gain, tube.threshold.value, tube.knee.value);
    Emit(t, tube.name, c.clamped, tube.gain, c.drive, section, tube.threshold)
  }

  /** A pot or switch stage: add `gain` to the level, with no clipping. */
  function GainStep(t: Trace, name: string, gain: real, section: Section): Trace {
    Emit(t, name, t.level + gain, gain, 0.0, section, None)
  }

  /** Stages 1-3: Pickup, Gtr Vol, Input. */
  function InputSection(m: Libm, s: AmpState): Trace {
    var t := Emit(Trace([], 0.0), "Pickup", PickupLevel(s.pickup), 0.0, 0.0, Input, None);
    var t := GainStep(t, "Gtr Vol", LogTaper(m, s.guitarVolume), Input);
    Emit(t, "Input", t.level - CableLoss, -CableLoss, 0.0, Input, None)
  }

  /** The label of the ERA stage. */
  function EraStageName(era: Era): string {
    if !EraClipping(era).enabled then "ERA (60s)"
    else if era == Eighties then "ERA (80s)"
    else "ERA (Mod)"
  }

  /** ERA diode clipping, or its Plexi bypass. */
  function EraStep(m: Libm, t: Trace, era: Era): Trace {
    var e := EraClipping(era);
    if e.enabled then
      var c := DiodeClip(m, t.level, e.threshold, "symmetrical");
      Emit(t, if era == Eighties then "ERA (80s)" else "ERA (Mod)", c.clamped, 0.0, c.drive, Preamp, None)
    else Emit(t, "ERA (60s)", t.level, 0.0, 0.0, Preamp, None)
  }

  /** Stages 4-9: the three cascaded gain stages with the pots and the trimmer between them. */
  function CascadeSection(m: Libm, s: AmpState, t: Trace): Trace {
    var t := TubeStep(m, t, V1a, Preamp);
    var t := GainStep(t, "Gain 1", LogTaper(m, s.gain1) + BrightBoostFor(s.bright1), Preamp);
    var t := TubeStep(m, t, V1b, Preamp);
    var t := GainStep(t, "Gain 2", LogTaper(m, s.gain2) + BrightBoostFor(s.bright2), Preamp);
    var t := GainStep(t, "Pussy Trim", PussyTrimTaper(m, s.pussyTrimmer), Preamp);
    TubeStep(m, t, V2a, Preamp)
  }

  /** Stages 4-13: the gain stages, then V2b, ERA, Master and the Tonestack. */
  function PreampSection(m: Libm, s: AmpState, t: Trace): Trace {
    var t := CascadeSection(m, s, t);
    var t := Emit(t, V2b.name, t.level + V2b.gain, V2b.gain, 0.0, Preamp, None);
    var t := EraStep(m, t, s.era);
    var t := GainStep(t, "Master", LogTaper(m, s.master), Preamp);
    GainStep(t, "Tonestack", BaseTonestackLoss + TonestackMod(s.bass, s.middle, s.treble), Preamp)
  }

  /** Stages 14-19, emitted only when the loop is enabled. */
  function FxLoopSection(s: AmpState, t: Trace): Trace {
    if !s.loopEnabled then t
    else
      var t := GainStep(t, "Send", LinearTaper(s.send), FxLoop);
      var t := if s.sendBright then GainStep(t, "Send Brt", BrightBoost.mid, FxLoop) else t;
      var t := GainStep(t, "Loop Out", 0.0, FxLoop);
      var t := GainStep(t, "Return", LinearTaper(s.fxReturn), FxLoop);
      var t := if s.returnBright then GainStep(t, "Ret Brt", BrightBoost.high, FxLoop) else t;
      GainStep(t, "Recovery", LinearTaper(s.recovery) + RecoveryCompensation, FxLoop)
  }

  /** Stages 20-22: the optional Focus boost and the two feedback pots. */
  function PowerPots(m: Libm, s: AmpState, t: Trace): Trace {
    var t := if s.focus then GainStep(t, "Focus", 1.0, Power) else t;
    var t := GainStep(t, "Presence", NfbGain(m, s.presence), Power);
    GainStep(t, "Resonance", NfbGain(m, s.resonance), Power)
  }

  /** Stages 20-24: the pots, then PI and the asymmetric power tubes. */
  function PowerSection(m: Libm, s: AmpState, t: Trace): Trace {
    var t := PowerPots(m, s, t);
    var t := TubeStep(m, t, PhaseInverter, Power);
    var c := AsymSoftClip(m, t.level + PowerTubes.gain, PowerTubes.threshold.value, PowerTubes.knee.value, DefaultAsymmetry);
    Emit(t, PowerTubes.name, c.clamped, PowerTubes.gain, c.drive, Power, PowerTubes.threshold)
  }

  /** Stage 25: the Captor X attenuator. */
  function OutputSection(s: AmpState, t: Trace): Trace {
    GainStep(t, "Captor X", s.captorAtten, Output)
  }

  /** The whole evaluation as a composition of its sections. */
  function Evaluation(m: Libm, s: AmpState): ChainResult {
    var pre := PreampSection(m, s, InputSection(m, s));
    var fin := OutputSection(s, PowerSection(m, s, FxLoopSection(s, pre)));
    ChainResult(fin.stages, pre.level, fin.level)
  }

  // ---------------------------------------------------------------- the evaluator

  /**
   * `calculateSignalChain`: a running `level` is updated stage by stage and each
   * stage's record is appended to `stages`. The stages are grouped into one method
   * per section of the source; each one continues the same `stages` and `level`.
   */
  method CalculateSignalChain(m: Libm, s: AmpState) returns (r: ChainResult)
    ensures r == Evaluation(m, s)
  {
    var stages, level := RunInput(m, s);
    stages, level := RunPreamp(m, s, stages, level);
    var preampOutput := level;
    stages, level := RunFxLoop(s, stages, level);
    stages, level := RunPower(m, s, stages, level);

    level := level + s.captorAtten;
    stages := stages + [MakeStage("Captor X", level, s.captorAtten, 0.0, Output, None)];

    r := ChainResult(stages, preampOutput, level);
  }

  /** Stages 1-3 of `calculateSignalChain`. */
  method RunInput(m: Libm, s: AmpState) returns (stages: seq<Stage>, level: real)
    ensures Trace(stages, level) == InputSection(m, s)
  {
    stages := [];
    level := PickupLevel(s.pickup);
    stages := stages + [MakeStage("Pickup", level, 0.0, 0.0, Input, None)];

    var guitarVolAtten := LogTaper(m, s.guitarVolume);
    level := level + guitarVolAtten;
    stages := stages + [MakeStage("Gtr Vol", level, guitarVolAtten, 0.0, Input, None)];

    level := level - CableLoss;
    stages := stages + [MakeStage("Input", level, -CableLoss, 0.0, Input, None)];
  }

  /** Stages 4-9 of `calculateSignalChain`, continuing `stages0` from `level0`. */
  method RunCascade(m: Libm, s: AmpState, stages0: seq<Stage>, level0: real) returns (stages: seq<Stage>, level: real)
    ensures Trace(stages, level) == CascadeSection(m, s, Trace(stages0, level0))
  {
    stages, level := stages0, level0;

    level := level + V1a.gain;
    var clip := SoftClip(m, level, V1a.threshold.value, V1a.knee.value);
    level := clip.clamped;
    stages := stages + [MakeStage("V1a", level, V1a.gain, clip.drive, Preamp, V1a.threshold)];

    var gain1Atten := LogTaper(m, s.gain1);
    level := level + gain1Atten;
    var bright1Boost := 0.0;
    if s.bright1 == Subtle { bright1Boost := BrightBoost.subtle; }
    if s.bright1 == Aggressive { bright1Boost := BrightBoost.aggressive; }
    assert bright1Boost == BrightBoostFor(s.bright1);
    level := level + bright1Boost;
    stages := stages + [MakeStage("Gain 1", level, gain1Atten + bright1Boost, 0.0, Preamp, None)];

    level := level + V1b.gain;
    clip := SoftClip(m, level, V1b.threshold.value, V1b.knee.value);
    level := clip.clamped;
    stages := stages + [MakeStage("V1b", level, V1b.gain, clip.drive, Preamp, V1b.threshold)];

    var gain2Atten := LogTaper(m, s.gain2);
    level := level + gain2Atten;
    var bright2Boost := 0.0;
    if s.bright2 == Subtle { bright2Boost := BrightBoost.subtle; }
    if s.bright2 == Aggressive { bright2Boost := BrightBoost.aggressive; }
    assert bright2Boost == BrightBoostFor(s.bright2);
    level := level + bright2Boost;
    stages := stages + [MakeStage("Gain 2", level, gain2Atten + bright2Boost, 0.0, Preamp, None)];

    var pussyTrimAtten := PussyTrimTaper(m, s.pussyTrimmer);
    level := level + pussyTrimAtten;
    stages := stages + [MakeStage("Pussy Trim", level, pussyTrimAtten, 0.0, Preamp, None)];

    level := level + V2a.gain;
    clip := SoftClip(m, level, V2a.threshold.value, V2a.knee.value);
    level := clip.clamped;
    stages := stages + [MakeStage("V2a", level, V2a.gain, clip.drive, Preamp, V2a.threshold)];
  }

  /** Stages 4-13 of `calculateSignalChain`, continuing `stages0` from `level0`. */
  method RunPreamp(m: Libm, s: AmpState, stages0: seq<Stage>, level0: real) returns (stages: seq<Stage>, level: real)
    ensures Trace(stages, level) == PreampSection(m, s, Trace(stages0, level0))
  {
    stages, level := RunCascade(m, s, stages0, level0);

    // V2b is a cathode follower: unity gain, never clipped, no threshold recorded.
    level := level + V2b.gain;
    stages := stages + [MakeStage("V2b", level, V2b.gain, 0.0, Preamp, None)];

    var eraConfig := EraClipping(s.era);
    if eraConfig.enabled {
      var eraClip := DiodeClip(m, level, eraConfig.threshold, "symmetrical");
      level := eraClip.clamped;
      var eraLabel := if s.era == Eighties then "ERA (80s)" else "ERA (Mod)";
      stages := stages + [MakeStage(eraLabel, level, 0.0, eraClip.drive, Preamp, None)];
    } else {
      stages := stages + [MakeStage("ERA (60s)", level, 0.0, 0.0, Preamp, None)];
    }

    var masterTaper := LogTaper(m, s.master);
    level := level + masterTaper;
    stages := stages + [MakeStage("Master", level, masterTaper, 0.0, Preamp, None)];

    var totalToneLoss := BaseTonestackLoss + TonestackMod(s.bass, s.middle, s.treble);
    level := level + totalToneLoss;
    stages := stages + [MakeStage("Tonestack", level, totalToneLoss, 0.0, Preamp, None)];
  }

  /** Stages 14-19 of `calculateSignalChain`: nothing is appended when the loop is off. */
  method RunFxLoop(s: AmpState, stages0: seq<Stage>, level0: real) returns (stages: seq<Stage>, level: real)
    ensures Trace(stages, level) == FxLoopSection(s, Trace(stages0, level0))
  {
    stages, level := stages0, level0;
    if s.loopEnabled {
      var sendLevel := LinearTaper(s.send);
      level := level + sendLevel;
      stages := stages + [MakeStage("Send", level, sendLevel, 0.0, FxLoop, None)];
      if s.sendBright {
        level := level + BrightBoost.mid;
        stages := stages + [MakeStage("Send Brt", level, BrightBoost.mid, 0.0, FxLoop, None)];
      }
      stages := stages + [MakeStage("Loop Out", level, 0.0, 0.0, FxLoop, None)];
      var returnLevel := LinearTaper(s.fxReturn);
      level := level + returnLevel;
      stages := stages + [MakeStage("Return", level, returnLevel, 0.0, FxLoop, None)];
      if s.returnBright {
        level := level + BrightBoost.high;
        stages := stages + [MakeStage("Ret Brt", level, BrightBoost.high, 0.0, FxLoop, None)];
      }
      var recoveryGain := LinearTaper(s.recovery) + RecoveryCompensation;
      level := level + recoveryGain;
      stages := stages + [MakeStage("Recovery", level, recoveryGain, 0.0, FxLoop, None)];
    }
  }

  /** Stages 20-24 of `calculateSignalChain`. */
  method RunPower(m: Libm, s: AmpState, stages0: seq<Stage>, level0: real) returns (stages: seq<Stage>, level: real)
    ensures Trace(stages, level) == PowerSection(m, s, Trace(stages0, level0))
  {
    stages, level := stages0, level0;
    if s.focus {
      level := level + 1.0;
      stages := stages + [MakeStage("Focus", level, 1.0, 0.0, Power, None)];
    }

    var presenceGain := NfbGain(m, s.presence);
    level := level + presenceGain;
    stages := stages + [MakeStage("Presence", level, presenceGain, 0.0, Power, None)];

    var resonanceGain := NfbGain(m, s.resonance);
    level := level + resonanceGain;
    stages := stages + [MakeStage("Resonance", level, resonanceGain, 0.0, Power, None)];

    level := level + PhaseInverter.gain;
    var clip := SoftClip(m, level, PhaseInverter.threshold.value, PhaseInverter.knee.value);
    level := clip.clamped;
    stages := stages + [MakeStage("PI", level, PhaseInverter.gain, clip.drive, Power, PhaseInverter.threshold)];

    level := level + PowerTubes.gain;
    clip := AsymSoftClip(m, level, PowerTubes.threshold.value, PowerTubes.knee.value, DefaultAsymmetry);
    level := clip.clamped;
    stages := stages + [MakeStage("Power", level, PowerTubes.gain, clip.drive, Power, PowerTubes.threshold)];
  }

  // ---------------------------------------------------------------- filter helpers

  /** The filter predicates of the helpers below. */
  function InSection(section: Section): Stage -> bool {
    (st: Stage) => st.section == section
  }

  predicate IsClipping(st: Stage) {
    st.drive > 0.0
  }

  predicate IsHeavilyClipping(st: Stage) {
    st.drive > 3.0
  }

  /** `getStagesBySection`. */
  function GetStagesBySection(stages: seq<Stage>, section: Section): (r: seq<Stage>)
    ensures forall i :: 0 <= i < |r| ==> r[i].section == section
    ensures forall i :: 0 <= i < |stages| && stages[i].section == section ==> stages[i] in r
  {
    JsArray.Filter(stages, InSection(section))
  }

  /** `getClippingStages`: stages with drive above 0. */
  function GetClippingStages(stages: seq<Stage>): (r: seq<Stage>)
    ensures forall i :: 0 <= i < |r| ==> r[i].drive > 0.0
    ensures forall i :: 0 <= i < |stages| && stages[i].drive > 0.0 ==> stages[i] in r
  {
    JsArray.Filter(stages, IsClipping)
  }

  /** `getHeavyClippingStages`: stages with drive above 3. */
  function GetHeavyClippingStages(stages: seq<Stage>): (r: seq<Stage>)
    ensures forall i :: 0 <= i < |r| ==> r[i].drive > 3.0
    ensures forall i :: 0 <= i < |stages| && stages[i].drive > 3.0 ==> stages[i] in r
  {
    JsArray.Filter(stages, IsHeavilyClipping)
  }

  /** `findStage`: the first stage with this name. */
  function FindStage(stages: seq<Stage>, name: string): (r: Option<Stage>)
    ensures r.None? <==> forall i :: 0 <= i < |stages| ==> stages[i].name != name
    ensures r.Some? ==> exists i :: 0 <= i < |stages| && stages[i] == r.value && r.value.name == name &&
                                   forall j :: 0 <= j < i ==> stages[j].name != name
  {
    JsArray.Find(stages, (st: Stage) => st.name == name)
  }
}
