/**
 * The switch table and the three-position bright-switch cycle
 * (src/js/controls/switches.js).
 */
module Switches {
  import JsArray
  import opened StateStore
  import opened StateKeys

  /** The positions of a bright switch, in cycling order. */
  const ThreePositions: seq<string> := ["off", "subtle", "aggressive"]

  /** `cycleThreePosition`: the next position; `indexOf` gives -1 for an unknown one, which wraps to 'off'. */
  function CycleThreePosition(current: string): (next: string)
    ensures next in ThreePositions
  {
    var currentIndex := JsArray.IndexOf(ThreePositions, current);
    ThreePositions[(currentIndex + 1) % |ThreePositions|]
  }

  lemma CycleSteps()
    ensures CycleThreePosition("off") == "subtle"
    ensures CycleThreePosition("subtle") == "aggressive"
    ensures CycleThreePosition("aggressive") == "off"
  {
    assert ThreePositions[0] == "off";
    assert ThreePositions[1] == "subtle";
    assert ThreePositions[2] == "aggressive";
  }

  /** Any unrecognised position moves to 'off'. */
  lemma CycleUnknownIsOff(current: string)
    requires current !in ThreePositions
    ensures CycleThreePosition(current) == "off"
  {
  }

  /** Three clicks bring a switch back to where it was. */
  lemma CycleThreeTimes(current: string)
    requires current in ThreePositions
    ensures CycleThreePosition(CycleThreePosition(CycleThreePosition(current))) == current
  {
    CycleSteps();
  }

  /** The bright switches' positions are exactly the state's `Bright` names. */
  lemma PositionsAreBrightNames()
    ensures ThreePositions == [BrightName(AmpConfig.Off), BrightName(AmpConfig.Subtle), BrightName(AmpConfig.Aggressive)]
  {
  }

  datatype SwitchKind = Toggle | ThreePosition

  /** An entry of `switchConfig`: the element id, the state key it drives, its default and its kind. */
  datatype SwitchSpec = SwitchSpec(id: string, stateKey: string, defaultValue: Value, kind: SwitchKind)

  /** `switchConfig`, in declaration order. */
  const SwitchConfig: seq<SwitchSpec> := [
    SwitchSpec("loop-bypass", "loopEnabled", Bool(true), Toggle),
    SwitchSpec("send-bright", "sendBright", Bool(false), Toggle),
    SwitchSpec("return-bright", "returnBright", Bool(false), Toggle),
    SwitchSpec("focus", "focus", Bool(false), Toggle),
    SwitchSpec("bright1", "bright1", Str("off"), ThreePosition),
    SwitchSpec("bright2", "bright2", Str("off"), ThreePosition)
  ]

  /**
   * The table agrees with the rest of the program: each id (and its `-sf` twin)
   * maps to its state key, each default is the value the fresh state holds, and
   * toggles default to booleans while bright switches default to a position.
   */
  lemma SwitchConfigConsistent()
    ensures forall i :: 0 <= i < |SwitchConfig| ==>
      && GetStateKey(SwitchConfig[i].id) == SwitchConfig[i].stateKey
      && GetStateKey(SwitchConfig[i].id + "-sf") == SwitchConfig[i].stateKey
      && Lookup(InitialRecord(), SwitchConfig[i].stateKey) == SwitchConfig[i].defaultValue
      && (SwitchConfig[i].kind == Toggle <==> SwitchConfig[i].defaultValue.Bool?)
      && (SwitchConfig[i].kind == ThreePosition ==> SwitchConfig[i].defaultValue.Str? && SwitchConfig[i].defaultValue.s in ThreePositions)
  {
    forall i | 0 <= i < |SwitchConfig|
      ensures GetStateKey(SwitchConfig[i].id) == SwitchConfig[i].stateKey
      ensures GetStateKey(SwitchConfig[i].id + "-sf") == SwitchConfig[i].stateKey
      ensures Lookup(InitialRecord(), SwitchConfig[i].stateKey) == SwitchConfig[i].defaultValue
      ensures SwitchConfig[i].kind == Toggle <==> SwitchConfig[i].defaultValue.Bool?
      ensures SwitchConfig[i].kind == ThreePosition ==> SwitchConfig[i].defaultValue.Str? && SwitchConfig[i].defaultValue.s in ThreePositions
    {
      EntryKey(i);
      EntryDefault(i);
      EntryKind(i);
    }
  }

  lemma EntryKind(i: nat)
    requires i < |SwitchConfig|
    ensures SwitchConfig[i].kind == Toggle <==> SwitchConfig[i].defaultValue.Bool?
    ensures SwitchConfig[i].kind == ThreePosition ==> SwitchConfig[i].defaultValue.Str? && SwitchConfig[i].defaultValue.s in ThreePositions
  {
  }

  lemma EntryKey(i: nat)
    requires i < |SwitchConfig|
    ensures GetStateKey(SwitchConfig[i].id) == SwitchConfig[i].stateKey
    ensures GetStateKey(SwitchConfig[i].id + "-sf") == SwitchConfig[i].stateKey
  {
    var id := SwitchConfig[i].id;
    assert !EndsWith(id, "-sf");
    assert id in ControlToStateKey && ControlToStateKey[id] == SwitchConfig[i].stateKey;
    SignalFlowTwin(id);
  }

  lemma EntryDefault(i: nat)
    requires i < |SwitchConfig|
    ensures Lookup(InitialRecord(), SwitchConfig[i].stateKey) == SwitchConfig[i].defaultValue
  {
  }

  /** The switch defaults: the loop on, the other toggles off, both bright switches at 'off'. */
  lemma SwitchDefaults()
    ensures forall i :: 0 <= i < |SwitchConfig| && SwitchConfig[i].kind == Toggle ==>
      SwitchConfig[i].defaultValue == Bool(SwitchConfig[i].stateKey == "loopEnabled")
    ensures forall i :: 0 <= i < |SwitchConfig| && SwitchConfig[i].kind == ThreePosition ==>
      SwitchConfig[i].defaultValue == Str("off")
  {
  }
}
