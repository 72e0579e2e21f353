/**
 * Constant tables of the amplifier (src/js/config/amp-config.js): tube stages,
 * ERA diode table, fixed losses, pickup levels, bright boosts, meter slots and
 * the default control state.
 */
module AmpConfig {
  import opened Wrappers

  datatype Pickup = Neck | Middle | Bridge
  /** The ERA switch; `Eighties` is the key '80s'. */
  datatype Era = Plexi | Eighties | Modern
  /** A three-position bright switch. */
  datatype Bright = Off | Subtle | Aggressive
  datatype Section = Input | Preamp | FxLoop | Power | Output

  /** The `type` of a tube stage: only V2b carries 'cathode-follower'. */
  datatype StageKind = GainStage | CathodeFollower

  /** One entry of `tubeStages`; `null` threshold and knee are `None`. */
  datatype TubeStage = TubeStage(gain: real, threshold: Option<real>, knee: Option<real>, name: string, kind: StageKind)

  const V1a: TubeStage := TubeStage(35.0, Some(38.0), Some(6.0), "V1a", GainStage)
  const V1b: TubeStage := TubeStage(30.0, Some(32.0), Some(6.0), "V1b", GainStage)
  const V2a: TubeStage := TubeStage(35.0, Some(38.0), Some(6.0), "V2a", GainStage)
  const V2b: TubeStage := TubeStage(0.0, None, None, "V2b", CathodeFollower)
  const PhaseInverter: TubeStage := TubeStage(20.0, Some(40.0), Some(6.0), "PI", GainStage)
  const PowerTubes: TubeStage := TubeStage(26.0, Some(44.0), Some(8.0), "Power", GainStage)

  /** An entry of `eraClipping`. */
  datatype EraSetting = EraSetting(enabled: bool, threshold: real)

  function EraClipping(era: Era): EraSetting {
    match era
    case Plexi => EraSetting(false, 0.0)
    case Eighties => EraSetting(true, 18.0)
    case Modern => EraSetting(true, 12.0)
  }

  const BaseTonestackLoss: real := -10.0

  function PickupLevel(p: Pickup): real {
    match p
    case Neck => -10.0
    case Middle => -8.0
    case Bridge => -6.0
  }

  const CableLoss: real := 0.5

  /** `brightBoost`: `mid` and `high` are the legacy keys used by the FX-loop bright switches. */
  datatype BrightBoostTable = BrightBoostTable(subtle: real, aggressive: real, mid: real, high: real)

  const BrightBoost: BrightBoostTable := BrightBoostTable(1.5, 2.5, 1.5, 2.5)

  const RecoveryCompensation: real := 2.5

  datatype MeterConfig = MeterConfig(minLevel: real, maxLevel: real, range: real)

  const Meter: MeterConfig := MeterConfig(-60.0, 50.0, 110.0)

  /** `stageCounts`: meter slots per section. */
  function StageCount(section: Section): nat {
    match section
    case Input => 3
    case Preamp => 10
    case FxLoop => 6
    case Power => 5
    case Output => 1
  }

  /** The control state record read by the signal chain; `fxReturn` is the key 'return'. */
  datatype AmpState = AmpState(
    pickup: Pickup,
    guitarVolume: real,
    gain1: real,
    bright1: Bright,
    gain2: real,
    bright2: Bright,
    era: Era,
    bass: real,
    middle: real,
    treble: real,
    loopEnabled: bool,
    send: real,
    sendBright: bool,
    fxReturn: real,
    returnBright: bool,
    recovery: real,
    master: real,
    focus: bool,
    presence: real,
    resonance: real,
    pussyTrimmer: real,
    captorAtten: real,
    meterPanelVisible: bool,
    viewMode: string)

  const DefaultState: AmpState := AmpState(
    Bridge, 10.0, 5.0, Off, 5.0, Off, Eighties, 5.0, 5.0, 5.0,
    true, 5.0, false, 5.0, false, 5.0, 3.0, false, 5.0, 5.0, 10.0, 0.0,
    true, "amp")

  predicate InPotRange(x: real) {
    0.0 <= x <= 10.0
  }

  /** Every continuous pot of the state lies in 0..10. */
  predicate PotsInRange(s: AmpState) {
    && InPotRange(s.guitarVolume) && InPotRange(s.gain1) && InPotRange(s.gain2)
    && InPotRange(s.bass) && InPotRange(s.middle) && InPotRange(s.treble)
    && InPotRange(s.send) && InPotRange(s.fxReturn) && InPotRange(s.recovery)
    && InPotRange(s.master) && InPotRange(s.presence) && InPotRange(s.resonance)
    && InPotRange(s.pussyTrimmer)
  }

  // ---------------------------------------------------------------- facts about the tables

  /** Every clipping tube stage has a threshold and a positive knee below it; V2b is a unity buffer. */
  lemma TubeStagesWellFormed()
    ensures forall t :: t in [V1a, V1b, V2a, PhaseInverter, PowerTubes] ==>
      t.threshold.Some? && t.knee.Some? && t.knee.value > 0.0 && t.kind == GainStage
    ensures V2b.gain == 0.0 && V2b.threshold.None? && V2b.kind == CathodeFollower
  {
  }

  /** Plexi bypasses the diodes; Modern clips earlier than 80s. */
  lemma EraTableFacts()
    ensures !EraClipping(Plexi).enabled
    ensures EraClipping(Eighties).enabled && EraClipping(Modern).enabled
    ensures EraClipping(Modern).threshold < EraClipping(Eighties).threshold
  {
  }

  lemma PickupLevelsOrdered()
    ensures PickupLevel(Neck) < PickupLevel(Middle) < PickupLevel(Bridge)
  {
  }

  lemma BrightBoostFacts()
    ensures BrightBoost.subtle < BrightBoost.aggressive
    ensures BrightBoost.mid == BrightBoost.subtle && BrightBoost.high == BrightBoost.aggressive
  {
  }

  /** The meter slots add up to 25. */
  lemma StageCountsTotal()
    ensures StageCount(Input) + StageCount(Preamp) + StageCount(FxLoop) + StageCount(Power) + StageCount(Output) == 25
  {
  }

  lemma DefaultStateFacts()
    ensures PotsInRange(DefaultState)
    ensures DefaultState.captorAtten == 0.0
    ensures DefaultState.pickup == Bridge && DefaultState.era == Eighties
    ensures DefaultState.bright1 == Off && DefaultState.bright2 == Off
  {
  }

  lemma MeterRangeFacts()
    ensures Meter.maxLevel - Meter.minLevel == Meter.range
  {
  }
}
