# GainStagerSim core in Dafny

GainStagerSim simulates the gain staging of a tube guitar amplifier: a Ceriatone
Chupacabra head with a Klein-ulator effects loop. This project models its core
and proves properties of the model.

**The level tracer.** The core is `calculateSignalChain`. It starts from the
pickup level and threads one running level, in dBV, through a fixed list of up
to 25 stages: the pots, the bright switches, the tube stages, the ERA diodes,
the FX loop, the power section and the Captor X attenuator. Each stage appends
a record holding:

- the stage name and section;
- the level, gain and drive, each rounded to 0.1 dB;
- for a tube stage, its clipping threshold.

**Around the tracer sit:**

- the transfer-function library: pot tapers, the tanh soft clipper and its
  asymmetric and diode variants, the tone-stack offset, the feedback curve,
  rounding, the LED classifier and the meter percentage;
- the constant tables of the amplifier;
- the state store, with change-only notification and a subscriber list;
- the control-id to state-key mapping;
- the three-position bright-switch cycle and the switch table;
- the export-stripping step of the bundler.

**Modules:**

| module | models | form |
|---|---|---|
| `GainMath` | `gain-math.js` | pure functions over `real` |
| `AmpConfig` | `amp-config.js` | constants and datatypes (`Pickup`, `Era`, `Bright`, `Section`, `AmpState`) |
| `SignalChain` | `calculateSignalChain` and the filter helpers | see below |
| `ChainProperties` | — | the lemmas about the evaluator |
| `StateStore` | `StateManager` and `createInitialState` | class `StateManager` |
| `StateKeys` | `controlToStateKey` and `getStateKey` | pure |
| `Switches` | `cycleThreePosition` and `switchConfig` | pure |
| `BuildExports` | `process_exports` of `scripts/build.py` | method with a loop |
| `JsArray` | `indexOf`, `filter`, `find`, `splice(i, 1)` | functions |

**How `SignalChain` is built.** `calculateSignalChain` is an imperative method.
A mutable `level` and `stages` are updated stage by stage, as in the source,
split into one method per section. Each method is proved equal to a
section-by-section specification function. The whole evaluation is
`Evaluation`.

**How the state store is built.** `StateManager` is a class with three fields:
the state map, the listener list and a log of deliveries. The deliveries take
the place of the listener calls. Every method states its whole new state
against specification functions on values: `SetRecord`/`SetEvents` and
`UpdateRecord`/`UpdateEvents`.

**`tanh` and `log10`** are parameters of the model, carried by
`GainMath.Libm`. The lemmas that need facts about them require `TanhLaws`,
`Log10Anchors`, `Log10Increasing` or `Log10Product`. This covers:

- tanh(0) = 0;
- tanh lies strictly inside (-1, 1), is odd and strictly increasing, and
  tanh(x) <= x for x >= 0;
- log10(1) = 0 and log10(10) = 1, log10 is increasing, and it turns products
  into sums.

**Observations the proofs make precise:**

- **The pot floor is not the low end.** `logTaper` returns -60 dB at
  position 0, but just above 0 its formula goes lower: -80 dB at 0.1
  (`LogTaperDipsBelowFloor`). So the taper is increasing on positive positions
  only.
- **The tone-stack extremes.** `tonestackMod` is +-8.5 dB at the extremes.
  The expected values printed by `scripts/test-math.mjs` say +-4.5 dB.
- **The feedback curve never reaches +-3 dB.** `nfbGain` stays strictly
  inside (-3, 3), so the +-3.0 end values that script expects are never
  reached.
- **The trimmer can go below its -40 dB end value.** `pussyTrimTaper` is
  never positive. For positions below 0.1 it is below -40 dB, even though
  the -40 dB value is stated for position 0 (`TrimBelowFloor`).

## Model

| member | source | states |
|---|---|---|
| GainMath.MeterBarHeight | src/js/core/gain-math.js:179-181 | the height is always within 0..100: the raw percentage when that lies in 0..100, 0 at or below 0, 100 at or above 100 |
| GainMath.LogTaperEnds | src/js/core/gain-math.js:12-15 | every position at or below 0 gives -60 dB and position 10 gives 0 dB |
| GainMath.LogTaperIncreasing | src/js/core/gain-math.js:12-15 | on positive positions the audio taper is strictly increasing |
| GainMath.LogTaperDipsBelowFloor | src/js/core/gain-math.js:12-15 | position 0.1 gives -80 dB, below the -60 dB of position 0 |
| GainMath.LinearTaperPoints | src/js/core/gain-math.js:23-25 | positions 0, 5 and 10 give -10, 0 and +10 dB |
| GainMath.PussyTrimTaperNeverPositive | src/js/core/gain-math.js:145-150 | -40 dB at or below 0, 0 dB at or above 10, strictly negative in between, so never a boost |
| GainMath.TrimBelowFloor | src/js/core/gain-math.js:145-150 | every position strictly between 0 and 0.1 gives less than the -40 dB of position 0 |
| GainMath.SoftClipBelowOnset | src/js/core/gain-math.js:36-40 | at or below the onset threshold-knee the result is clamped = raw = level with drive 0 |
| GainMath.SoftClipCompresses | src/js/core/gain-math.js:42-48 | above the onset with a positive knee: onset < clamped < threshold, clamped <= level, raw = level, drive = level - clamped >= 0 |
| GainMath.SoftClipBounded | src/js/core/gain-math.js:35-49 | for every level, a positive knee gives clamped <= level, clamped < threshold and drive = level - clamped >= 0 |
| GainMath.AsymSoftClipDelegates | src/js/core/gain-math.js:61-67 | non-negative levels are clipped at threshold*(1-a), negative ones at threshold*(1+a) |
| GainMath.DiodeClipIgnoresType | src/js/core/gain-math.js:130-135 | the type argument makes no difference and the result is a soft clip with a 2 dB knee |
| GainMath.GetClipStateCases | src/js/core/gain-math.js:76-82 | each LED colour holds exactly under its branch condition of the first-match cascade |
| GainMath.GetClipStateExample | src/js/core/gain-math.js:76-82 | drive 0 at level 30 against threshold 38 is green |
| GainMath.TonestackModPoints | src/js/core/gain-math.js:91-96 | the offset is 0 at noon, +8.5 dB with all three full up and -8.5 dB with all at 0 |
| GainMath.NfbGainShape | src/js/core/gain-math.js:103-108 | 0 at 5, strictly increasing, odd about 5, strictly inside (-3, 3) |
| GainMath.EraModifiedTaperIgnoresEra | src/js/core/gain-math.js:118-120 | the master taper comes back unchanged whatever the era |
| GainMath.RoundLevelClose | src/js/core/gain-math.js:157-159 | rounding moves a value by more than -0.05 and at most +0.05 |
| GainMath.RoundLevelMonotone | src/js/core/gain-math.js:157-159 | rounding preserves order |
| GainMath.RoundLevelTenths | src/js/core/gain-math.js:157-159 | a whole number of tenths is its own rounding |
| GainMath.RoundLevelNonNegative | src/js/core/gain-math.js:157-159 | rounding a non-negative value gives a non-negative one |
| AmpConfig.TubeStagesWellFormed | src/js/config/amp-config.js:30-37 | V1a, V1b, V2a, PI and Power have a threshold and a positive knee; V2b is a cathode follower with gain 0 and no threshold |
| AmpConfig.EraTableFacts | src/js/config/amp-config.js:44-48 | Plexi is bypassed, 80s and Modern clip, and Modern clips below 80s |
| AmpConfig.PickupLevelsOrdered | src/js/config/amp-config.js:60-64 | neck < middle < bridge |
| AmpConfig.BrightBoostFacts | src/js/config/amp-config.js:75-80 | subtle < aggressive; the legacy mid and high equal subtle and aggressive |
| AmpConfig.MeterRangeFacts | src/js/config/amp-config.js:90-94 | the meter range is maxLevel - minLevel |
| AmpConfig.StageCountsTotal | src/js/config/amp-config.js:99-105 | the meter slots add up to 25 |
| AmpConfig.DefaultStateFacts | src/js/config/amp-config.js:110-135 | every pot of the default state lies in 0..10; bridge pickup, 80s era, brights off, no Captor attenuation |
| JsArray.IndexOf | src/js/core/state.js:91 | -1 exactly when absent, else the first index holding the element |
| JsArray.IndexOfFirst | src/js/core/state.js:91 | an index holding the element with no earlier occurrence is exactly what `indexOf` returns |
| JsArray.Filter | src/js/core/signal-chain.js:223 | no longer than the input; keeps exactly the elements that pass |
| JsArray.Find | src/js/core/signal-chain.js:251 | none exactly when no element passes, else the first that passes |
| JsArray.RemoveAt | src/js/core/state.js:93 | one element shorter, the elements before `i` kept, the rest shifted down by one |
| JsArray.FilterAppend | src/js/core/signal-chain.js:222-224 | filtering distributes over concatenation, so the input order is kept |
| JsArray.FilterNarrows | src/js/core/signal-chain.js:231-242 | filtering by a weaker test and then a stronger one is filtering by the stronger one |
| JsArray.FilterSlice | src/js/core/signal-chain.js:222-224 | when exactly the indices x..y pass, the filter is that slice |
| SignalChain.CalculateSignalChain | src/js/core/signal-chain.js:25-214 | the imperative evaluator returns exactly `Evaluation`, the section-by-section composition proved about below |
| SignalChain.RunInput | src/js/core/signal-chain.js:43-54 | stages 1-3 equal `InputSection` |
| SignalChain.RunCascade | src/js/core/signal-chain.js:56-98 | stages 4-9 continue the given records and level exactly as `CascadeSection` |
| SignalChain.RunPreamp | src/js/core/signal-chain.js:56-135 | stages 4-13 continue the given records and level exactly as `PreampSection` |
| SignalChain.RunFxLoop | src/js/core/signal-chain.js:141-171 | stages 14-19 equal `FxLoopSection`, which appends nothing when the loop is off |
| SignalChain.RunPower | src/js/core/signal-chain.js:175-203 | stages 20-24 equal `PowerSection` |
| SignalChain.GetStagesBySection | src/js/core/signal-chain.js:222-224 | every result is of that section and every stage of that section is in the result |
| SignalChain.GetClippingStages | src/js/core/signal-chain.js:231-233 | exactly the stages with drive above 0 |
| SignalChain.GetHeavyClippingStages | src/js/core/signal-chain.js:240-242 | exactly the stages with drive above 3 |
| SignalChain.FindStage | src/js/core/signal-chain.js:250-252 | none exactly when no stage has the name, else the first stage with it |
| ChainProperties.InputAppends | src/js/core/signal-chain.js:43-54 | the input section emits Pickup, Gtr Vol and Input, all in section input |
| ChainProperties.CascadeAppends | src/js/core/signal-chain.js:56-98 | the cascade keeps the records it is given and appends V1a, Gain 1, V1b, Gain 2, Pussy Trim and V2a |
| ChainProperties.PreampAppends | src/js/core/signal-chain.js:56-135 | the preamp appends the cascade, V2b, the era-named ERA stage, Master and Tonestack |
| ChainProperties.FxLoopAppends | src/js/core/signal-chain.js:141-171 | the loop appends Send, optional Send Brt, Loop Out, Return, optional Ret Brt and Recovery, or nothing when off |
| ChainProperties.PowerAppends | src/js/core/signal-chain.js:175-203 | the power section appends optional Focus, Presence, Resonance, PI and Power |
| ChainProperties.OutputAppends | src/js/core/signal-chain.js:205-207 | the output section appends Captor X |
| ChainProperties.ChainLayout | src/js/core/signal-chain.js:43-207 | for every state the records' names and sections are exactly `ExpectedLayout` of its switch positions |
| ChainProperties.StageTotal | src/js/core/signal-chain.js:43-207 | 18 records plus 4 to 6 from an enabled loop plus one for Focus; never more than the 25 slots of the table; 25 with everything on |
| ChainProperties.ExpectedLayoutInOrder | src/js/core/signal-chain.js:43-207 | `ExpectedLayout` runs input, preamp, FX loop, power, output |
| ChainProperties.SectionsInOrder | src/js/core/signal-chain.js:43-207 | sections never interleave: a later record never belongs to an earlier section |
| ChainProperties.BySectionAppend | src/js/core/signal-chain.js:222-224 | grouping by section distributes over concatenation of traces |
| ChainProperties.BlockFilter | src/js/core/signal-chain.js:222-224 | a section whose records sit exactly at x..y groups into that slice |
| ChainProperties.FiveBlocks | src/js/core/signal-chain.js:222-224 | a trace of five single-section blocks in chain order groups into those blocks |
| ChainProperties.OuterBlocks | src/js/core/signal-chain.js:222-224 | in such a trace the input group is the first 3 records and the output group the last record |
| ChainProperties.InnerBlocks | src/js/core/signal-chain.js:222-224 | in such a trace the preamp, FX loop and power groups are their blocks |
| ChainProperties.SectionBlocks | src/js/core/signal-chain.js:222-224 | `getStagesBySection` on the result gives the first 3 records, the next 10, the loop's, the power ones and the final Captor X record |
| ChainProperties.BlocksOfLayout | src/js/core/signal-chain.js:222-224 | the same grouping for any trace laid out as `ExpectedLayout` |
| ChainProperties.SectionCounts | src/js/config/amp-config.js:99-105 | input 3, preamp 10 and output 1 always; loop and power counts by switch; every section within its meter slots |
| ChainProperties.CountsOfLayout | src/js/config/amp-config.js:99-105 | the same counts for any trace laid out as `ExpectedLayout` |
| ChainProperties.LayoutLengths | src/js/core/signal-chain.js:141-203 | the loop takes 4 + Send Brt + Ret Brt slots when enabled, 0 otherwise; power takes 4 + Focus |
| ChainProperties.PreampPrefix | src/js/core/signal-chain.js:137-138 | the 13 preamp records are a prefix of the result and the preamp snapshot is their final level |
| ChainProperties.FirstRecordIsPickup | src/js/core/signal-chain.js:43-45 | record 0 is Pickup at the pickup's table level with gain and drive 0 |
| ChainProperties.TonestackShowsPreampOutput | src/js/core/signal-chain.js:131-138 | record 12 is the first Tonestack record and shows the rounded preamp snapshot |
| ChainProperties.TonestackInPreamp | src/js/core/signal-chain.js:131-138 | the preamp trace ends with its only Tonestack record, which shows its rounded level |
| ChainProperties.TonestackInLayout | src/js/core/signal-chain.js:131-135 | in the 13 preamp slots only the last is Tonestack |
| ChainProperties.BrightBoostRecorded | src/js/core/signal-chain.js:63-86 | Gain 1 and Gain 2 record the taper plus the boost of their bright switch |
| ChainProperties.LoopBrightsRecorded | src/js/core/signal-chain.js:148-164 | with the loop on, Send Brt (record 14) records the rounded `brightBoost.mid` and Ret Brt (record 16, or 17 after Send Brt) the rounded `brightBoost.high`, both in the FX loop section |
| ChainProperties.V2bPassesThrough | src/js/core/signal-chain.js:100-106 | V2b records gain 0, drive 0, no threshold and V2a's level |
| ChainProperties.EraRecord | src/js/core/signal-chain.js:114-124 | record 10 is named by era; Plexi passes V2b's level with drive 0; 80s and Modern show the rounded `diodeClip` output and drive of V2b's level at the era threshold, and with the tanh laws never raise the level, keep it at or below the threshold and have non-negative drive |
| ChainProperties.EraInPreamp | src/js/core/signal-chain.js:114-124 | the same facts, including the exact `diodeClip` values, about the 13-record preamp trace |
| ChainProperties.EraStepRecord | src/js/core/signal-chain.js:114-124 | the ERA stage appends one gain-0 record: the rounded incoming level with drive 0 in Plexi mode, otherwise the rounded `diodeClip` output and drive at the era threshold |
| ChainProperties.CaptorNamedOnce | src/js/core/signal-chain.js:205-207 | no slot before the output slot is named Captor X |
| ChainProperties.CaptorShowsFinalOutput | src/js/core/signal-chain.js:205-213 | the last record is the first Captor X, in section output, showing the rounded final output and the attenuation |
| ChainProperties.CaptorInLayout | src/js/core/signal-chain.js:205-207 | in a trace laid out as `ExpectedLayout`, only the last record is Captor X |
| ChainProperties.OutputRecord | src/js/core/signal-chain.js:205-213 | the Captor X record shows the rounded level after the attenuator and the rounded attenuation |
| ChainProperties.EmitSound | src/js/core/signal-chain.js:32-41 | appending a sound record to a trace of sound records keeps every record sound |
| ChainProperties.GainStepSound | src/js/core/signal-chain.js:32-41 | a pot or switch stage records no drive and no threshold, so the trace stays sound |
| ChainProperties.TubeStepSound | src/js/core/signal-chain.js:56-61 | a tube with a positive knee records non-negative drive and a level at or below its threshold |
| ChainProperties.InputSound | src/js/core/signal-chain.js:43-54 | the input records are sound |
| ChainProperties.CascadeSound | src/js/core/signal-chain.js:56-98 | the cascade keeps a sound trace sound |
| ChainProperties.CascadeStepsSound | src/js/core/signal-chain.js:56-98 | the six cascade steps keep a trace sound whatever gains the pots add |
| ChainProperties.TubeGainSound | src/js/core/signal-chain.js:56-86 | V1a or V1b followed by its pot keeps the trace sound |
| ChainProperties.TrimTubeSound | src/js/core/signal-chain.js:88-98 | the trimmer followed by V2a keeps the trace sound |
| ChainProperties.EraStepSound | src/js/core/signal-chain.js:114-124 | the ERA stage adds a sound record |
| ChainProperties.PreampSound | src/js/core/signal-chain.js:56-135 | the preamp keeps a sound trace sound |
| ChainProperties.FxLoopSound | src/js/core/signal-chain.js:141-171 | the loop keeps a sound trace sound |
| ChainProperties.PowerPotsSound | src/js/core/signal-chain.js:175-189 | Focus, Presence and Resonance keep a sound trace sound |
| ChainProperties.PowerTubesSound | src/js/core/signal-chain.js:198-203 | the power tubes clip below the 44 dB they record, with non-negative drive |
| ChainProperties.PowerTubeStagesSound | src/js/core/signal-chain.js:191-203 | PI and the power tubes keep the trace sound |
| ChainProperties.PowerSound | src/js/core/signal-chain.js:175-203 | the power section keeps a sound trace sound |
| ChainProperties.RecordsSound | src/js/core/signal-chain.js:43-207 | every record has drive >= 0, drive 0 on non-clipping stages, and a level at or below any threshold it records |
| ChainProperties.PreampIgnoresLaterControls | src/js/core/signal-chain.js:138-207 | states that agree on the preamp controls have the same preamp snapshot and first 13 records, whatever the loop, power and output controls |
| ChainProperties.SamePreampTrace | src/js/core/signal-chain.js:43-135 | the preamp trace depends only on the preamp controls |
| ChainProperties.SameCascade | src/js/core/signal-chain.js:56-98 | the cascade depends only on the preamp controls |
| ChainProperties.LoopOffIgnoresLoopControls | src/js/core/signal-chain.js:141-171 | with the loop off, send, return, recovery and both loop bright switches change nothing in the result |
| ChainProperties.SameAfterLoop | src/js/core/signal-chain.js:141-207 | with the loop off, the rest of the chain depends only on focus, presence, resonance and Captor |
| ChainProperties.LoopAddsItsRecords | src/js/core/signal-chain.js:141-171 | enabling the loop adds exactly 4 + Send Brt + Ret Brt records |
| ChainProperties.FullGainDrivesV1b | src/js/core/signal-chain.js:47-77 | with guitar volume and Gain 1 at 10, V1a stays clean and V1b records at least 22.5 dB of drive |
| ChainProperties.FullGainPreamp | src/js/core/signal-chain.js:47-77 | the same facts about the preamp trace |
| ChainProperties.PreampExtendsCascade | src/js/core/signal-chain.js:56-135 | the preamp keeps the cascade's records, 6 more than its input |
| ChainProperties.V1aClean | src/js/core/signal-chain.js:56-61 | an input at or below -3 dBV passes V1a unclipped |
| ChainProperties.V1bDriven | src/js/core/signal-chain.js:72-77 | an input at or above 24.5 dBV gives V1b at least 22.5 dB of drive |
| ChainProperties.DefaultStateChain | src/js/core/signal-chain.js:43-207 | the default state gives 22 records, from Pickup at -6 dB to Captor X |
| ChainProperties.HeavyClippingNarrowsClipping | src/js/core/signal-chain.js:231-242 | the heavy-clipping stages are the clipping stages narrowed to drive above 3 |
| StateStore.InitialSelectors | src/js/core/state.js:11-13 | the fresh state holds bridge, 80s, master 3 and Captor 0 |
| StateStore.InitialSwitches | src/js/core/state.js:11-13 | the fresh state has the loop on, focus and the loop brights off, both bright switches at off |
| StateStore.Broadcast | src/js/core/state.js:102-110 | a run of notifications makes one delivery per listener per notification: the number of listeners times the number of notifications |
| StateStore.BroadcastLast | src/js/core/state.js:102-110 | one more notification appends one delivery per listener for it |
| StateStore.BroadcastSnoc | src/js/core/state.js:102-110 | the deliveries of two successive runs of notifications, of any lengths, concatenate |
| StateStore.SetRecord | src/js/core/state.js:46-52 | the key reads the new value, every other key is unchanged, and storing the current value changes nothing |
| StateStore.SetEvents | src/js/core/state.js:46-52 | no notification exactly when the value is unchanged, else one (key, new, old) |
| StateStore.UpdateStep | src/js/core/state.js:58-62 | one more entry is one more set on the record so far, with its notifications appended |
| StateStore.UpdateLogStep | src/js/core/state.js:58-62 | one more entry sets the record once more and appends that set's deliveries to the log so far |
| StateStore.UpdateLeavesOtherKeys | src/js/core/state.js:58-62 | a key no entry names keeps its value |
| StateStore.UpdateLastEntryWins | src/js/core/state.js:58-62 | the last entry for a key decides its value |
| StateStore.UpdateNotifiesOnlyChanges | src/js/core/state.js:58-62 | at most one notification per entry, each a real change carried by one of the entries |
| StateStore.UpdateWithCurrentValuesIsSilent | src/js/core/state.js:58-62 | updating keys to their current values changes nothing and notifies nobody |
| StateStore.ToggleValue | src/js/core/state.js:69-73 | the stored boolean is the negated truthiness, always different from the old value |
| StateStore.ToggleTwice | src/js/core/state.js:69-73 | toggling a boolean twice restores it |
| StateStore.RemoveFirstRemovesOne | src/js/core/state.js:90-95 | unsubscribing removes exactly the first occurrence, or nothing when absent |
| StateStore.UnsubscribeTwiceIsNoop | src/js/core/state.js:90-95 | for a listener subscribed once, a second unsubscribe is a no-op |
| StateStore.SubscribeThenUnsubscribe | src/js/core/state.js:88-96 | subscribing a new listener then unsubscribing it gives the list back |
| StateStore.StateManager.constructor | src/js/core/state.js:20-23 | the given state or a fresh default state, no listeners |
| StateStore.StateManager.Snapshot | src/js/core/state.js:28-30 | the copy reads like the store, key by key |
| StateStore.StateManager.Get | src/js/core/state.js:37-39 | the stored value, or undefined for a missing key |
| StateStore.StateManager.NotifyListeners | src/js/core/state.js:102-110 | one delivery per listener in subscription order; state and listeners unchanged |
| StateStore.StateManager.Set | src/js/core/state.js:46-52 | the new state is `SetRecord` and the deliveries are those of `SetEvents` |
| StateStore.StateManager.Update | src/js/core/state.js:58-62 | the new state is `UpdateRecord` of the entries in order and the deliveries are those of `UpdateEvents` |
| StateStore.StateManager.Toggle | src/js/core/state.js:69-73 | stores and returns the negation and always notifies (key, new, old) |
| StateStore.StateManager.Reset | src/js/core/state.js:78-81 | the fresh default state and one '*' notification carrying it |
| StateStore.StateManager.Subscribe | src/js/core/state.js:88-89 | the listener is appended |
| StateStore.StateManager.Unsubscribe | src/js/core/state.js:90-95 | the list becomes `RemoveFirst` of the old list |
| StateKeys.ToUpper | src/js/core/state.js:154 | a lower-case letter becomes its own capital, 32 code points lower, as `toUpperCase` does for a-z |
| StateKeys.StripSf | src/js/core/state.js:146 | exactly one trailing -sf is removed, and nothing otherwise |
| StateKeys.CamelHead | src/js/core/state.js:154 | the rewrite starts with the upper-cased letter of a leading pair, else with the first character |
| StateKeys.CamelHasNoPair | src/js/core/state.js:154 | the rewrite leaves no '-' followed by a lower-case letter |
| StateKeys.CamelLength | src/js/core/state.js:154 | the rewrite is shorter by the number of pairs |
| StateKeys.CamelIdentity | src/js/core/state.js:154 | a string without pairs is its own rewrite |
| StateKeys.NoPairNoSf | src/js/core/state.js:146 | a string without pairs does not end in -sf |
| StateKeys.FallbackShape | src/js/core/state.js:153-154 | a fallback key has no pair left and is shorter by the number of pairs |
| StateKeys.SignalFlowTwin | src/js/core/state.js:144-151 | id-sf maps to the same key as id |
| StateKeys.TableExamples | src/js/core/state.js:117-151 | the table wins: loop-bypass and loop-bypass-sf give loopEnabled, guitar-volume gives guitarVolume, return-bright-sf gives returnBright |
| StateKeys.TableValuesHaveNoPair | src/js/core/state.js:117-137 | no table value has a pair |
| StateKeys.RenamedKeysAreHyphenated | src/js/core/state.js:117-137 | the table renames only hyphenated ids |
| StateKeys.PairFreeKeysMapToThemselves | src/js/core/state.js:117-137 | a table id without a pair maps to itself |
| StateKeys.GetStateKeyIdempotent | src/js/core/state.js:117-155 | mapping a state key again gives it back |
| Switches.CycleThreePosition | src/js/controls/switches.js:112-117 | the next position is always one of off, subtle, aggressive |
| Switches.CycleSteps | src/js/controls/switches.js:112-117 | off to subtle, subtle to aggressive, aggressive to off |
| Switches.CycleUnknownIsOff | src/js/controls/switches.js:112-117 | an unknown position moves to off |
| Switches.CycleThreeTimes | src/js/controls/switches.js:112-117 | three clicks bring a switch back |
| Switches.PositionsAreBrightNames | src/js/controls/switches.js:113 | the positions are the state's bright names, in order |
| Switches.SwitchConfigConsistent | src/js/controls/switches.js:10-17 | each entry's id and id-sf map to its state key, its default is the fresh state's value, toggles default to booleans and bright switches to a position |
| Switches.EntryKind | src/js/controls/switches.js:10-17 | toggles have boolean defaults, three-position switches a valid position |
| Switches.EntryKey | src/js/controls/switches.js:10-17 | an entry's id and its -sf twin map to its state key |
| Switches.EntryDefault | src/js/controls/switches.js:10-17 | an entry's default is the fresh state's value |
| Switches.SwitchDefaults | src/js/controls/switches.js:10-17 | the loop defaults on, the other toggles off, the bright switches at off |
| BuildExports.LeadingSpace | scripts/build.py:85 | the length of the whitespace run at the front |
| BuildExports.RStrip | scripts/build.py:85 | a prefix with no trailing whitespace, cut only at whitespace |
| BuildExports.FindFirst | scripts/build.py:90 | the first index where the pattern occurs, or none when it occurs nowhere |
| BuildExports.Split | scripts/build.py:80 | at least one line, none containing a newline |
| BuildExports.JoinSplit | scripts/build.py:80-94 | splitting at newlines and joining with newlines gives the text back |
| BuildExports.ProcessExports | scripts/build.py:74-94 | the loop computes `Join(ProcessLines(Split(text)))` |
| BuildExports.ProcessLinesAppend | scripts/build.py:83-92 | lines are processed independently |
| BuildExports.ProcessLinesIsFilterThenRewrite | scripts/build.py:83-92 | the result is the kept lines in order, each rewritten; its length drops by the number of export default lines |
| BuildExports.NonExportLineUnchanged | scripts/build.py:89-92 | a line not starting with export is kept unchanged |
| BuildExports.ExportAfterIndent | scripts/build.py:89 | an export line has `export ` right after its indentation |
| BuildExports.ExportLineLosesPrefix | scripts/build.py:89-90 | an export line loses exactly the `export ` after its indentation and becomes 7 characters shorter |
| BuildExports.DeleteFirst | scripts/build.py:90 | replacing the first occurrence by nothing deletes it |
| BuildExports.NoExportLinesUnchanged | scripts/build.py:83-92 | lines without export lines pass through unchanged |
| BuildExports.NoExportsUnchanged | scripts/build.py:80-94 | a module without export lines comes back exactly as it was |

## Left out

- IEEE-754 arithmetic: levels are reals, so there is no NaN, no infinity and no rounding error. `Math.round` is modelled exactly as floor(10x + 0.5) / 10. With a zero knee, `softClip` divides by zero in the source; the model writes out the value JavaScript arrives at (tanh of +Infinity times 0), a hard clip at the onset.
- `formatLevel` (gain-math.js:167-170) is string formatting with `toFixed` and is not part of this model.
- GainMath.MeterBarHeight: requires a non-zero range. With range 0 the source yields Infinity or NaN, which reals cannot express; its only caller (meters.js:86) uses the default 110.
- `Math.tanh` and `Math.log10` are parameters. They are not computed. The lemmas that need them require only the laws listed above.
- The GainMath and ChainProperties lemmas about clipping, drive and soundness hold only under `TanhLaws`. Those about the tapers hold only under the `log10` laws they name.
- Invalid enum values for pickup, era and bright switches cannot be represented. The source yields NaN, throws, or adds 0 for them.
- The legacy V2b branch (signal-chain.js:107-112) is not modelled. Its guard is false with the shipped `tubeStages`.
- Listener callbacks, their try/catch and `console.error` are not modelled, nor is re-entrant calling of the store from a listener. Every call is recorded in the delivery log instead. Listeners are known by a number.
- StateStore.StateManager.constructor: takes an optional record. Any given record is used, so JavaScript falsy arguments other than `null`/`undefined` are not distinguished.
- Object identity is not modelled. Values are compared structurally. `reset` and the `state` getter's copies are records, not shared objects.
- Object-valued state entries are not modelled either: the store's values are the primitives undefined, null, number, boolean and string.
- Property names that JavaScript objects inherit, such as `constructor`, are not modelled, neither in the `controlToStateKey` lookup nor in the store: `StateStore.Lookup`, and with it `get`, `set` and `toggle`, reads such a key as undefined where the source finds the inherited function.
- `update` takes a sequence of entries, standing for the order `Object.entries` gives.
- The DOM parts of switches.js, knobs.js, selectors.js, view-toggle.js, meters.js, signal-flow.js, summary.js and main.js are not part of this model.
- The rest of scripts/build.py (file reading, regex inlining, argparse) is not part of this model.
- `scripts/test-math.mjs` and `scripts/test-signal-chain.mjs` only print values. They are not modelled.
- Python's `str.strip()` whitespace is the explicit set of characters in `BuildExports.IsSpace`.
