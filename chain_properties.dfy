/**
 * Properties of the signal-chain evaluator: the order and grouping of the stage
 * records, how many there are, which controls can influence which records, and
 * the per-record promises about drive and threshold.
 */
module ChainProperties {
  import opened Wrappers
  import opened GainMath
  import opened AmpConfig
  import opened SignalChain
  import JsArray

  // ---------------------------------------------------------------- layout

  /** A record's name and section. */
  type Slot = (string, Section)

  /** The names and sections of a trace, in order. */
  function Layout(stages: seq<Stage>): seq<Slot> {
    seq(|stages|, i requires 0 <= i < |stages| => (stages[i].name, stages[i].section))
  }

  const InputLayout: seq<Slot> := [("Pickup", Input), ("Gtr Vol", Input), ("Input", Input)]

  const CascadeLayout: seq<Slot> :=
    [("V1a", Preamp), ("Gain 1", Preamp), ("V1b", Preamp), ("Gain 2", Preamp), ("Pussy Trim", Preamp), ("V2a", Preamp)]

  function PreampLayout(era: Era): seq<Slot> {
    CascadeLayout + [("V2b", Preamp), (EraStageName(era), Preamp), ("Master", Preamp), ("Tonestack", Preamp)]
  }

  function FxLoopLayout(s: AmpState): seq<Slot> {
    if !s.loopEnabled then []
    else
      [("Send", FxLoop)] + (if s.sendBright then [("Send Brt", FxLoop)] else [])
      + [("Loop Out", FxLoop), ("Return", FxLoop)] + (if s.returnBright then [("Ret Brt", FxLoop)] else [])
      + [("Recovery", FxLoop)]
  }

  function PowerLayout(s: AmpState): seq<Slot> {
    (if s.focus then [("Focus", Power)] else []) + [("Presence", Power), ("Resonance", Power), ("PI", Power), ("Power", Power)]
  }

  const OutputLayout: seq<Slot> := [("Captor X", Output)]

  /** The names and sections of the records `calculateSignalChain` emits for a given set of switch positions. */
  function ExpectedLayout(s: AmpState): seq<Slot> {
    InputLayout + PreampLayout(s.era) + FxLoopLayout(s) + PowerLayout(s) + OutputLayout
  }

  function Ind(b: bool): nat {
    if b then 1 else 0
  }

  /** `u` continues `t`: it keeps `t`'s records and appends records laid out as `added`. */
  ghost predicate Appends(t: Trace, u: Trace, added: seq<Slot>) {
    t.stages <= u.stages && Layout(u.stages) == Layout(t.stages) + added
  }

  lemma LayoutSnoc()
    ensures forall a: seq<Stage>, x: Stage :: Layout(a + [x]) == Layout(a) + [(x.name, x.section)]
  {
    forall a: seq<Stage>, x: Stage ensures Layout(a + [x]) == Layout(a) + [(x.name, x.section)] {
      assert Layout(a + [x]) == Layout(a) + [(x.name, x.section)];
    }
  }

  lemma InputAppends(m: Libm, s: AmpState)
    ensures Appends(Trace([], 0.0), InputSection(m, s), InputLayout)
  {
    LayoutSnoc();
  }

  lemma CascadeAppends(m: Libm, s: AmpState, t: Trace)
    ensures Appends(t, CascadeSection(m, s, t), CascadeLayout)
  {
    LayoutSnoc();
  }

  lemma PreampAppends(m: Libm, s: AmpState, t: Trace)
    ensures Appends(t, PreampSection(m, s, t), PreampLayout(s.era))
  {
    LayoutSnoc();
    CascadeAppends(m, s, t);
  }

  lemma FxLoopAppends(s: AmpState, t: Trace)
    ensures Appends(t, FxLoopSection(s, t), FxLoopLayout(s))
  {
    LayoutSnoc();
  }

  lemma PowerAppends(m: Libm, s: AmpState, t: Trace)
    ensures Appends(t, PowerSection(m, s, t), PowerLayout(s))
  {
    LayoutSnoc();
  }

  lemma OutputAppends(s: AmpState, t: Trace)
    ensures Appends(t, OutputSection(s, t), OutputLayout)
  {
    LayoutSnoc();
  }

  /** The records come out in `ExpectedLayout`'s order, with its names and sections. */
  lemma ChainLayout(m: Libm, s: AmpState)
    ensures Layout(Evaluation(m, s).stages) == ExpectedLayout(s)
  {
    var inp := InputSection(m, s);
    var pre := PreampSection(m, s, inp);
    var lp := FxLoopSection(s, pre);
    var pw := PowerSection(m, s, lp);
    InputAppends(m, s);
    PreampAppends(m, s, inp);
    FxLoopAppends(s, pre);
    PowerAppends(m, s, lp);
    OutputAppends(s, pw);
  }

  // ---------------------------------------------------------------- counts and grouping

  /** 18 records always, 4 to 6 more from an enabled loop, one for Focus; never more than the 25 of the stage-count table. */
  lemma StageTotal(m: Libm, s: AmpState)
    ensures |Evaluation(m, s).stages|
         == 18 + (if s.loopEnabled then 4 + Ind(s.sendBright) + Ind(s.returnBright) else 0) + Ind(s.focus)
    ensures |Evaluation(m, s).stages|
         <= StageCount(Input) + StageCount(Preamp) + StageCount(FxLoop) + StageCount(Power) + StageCount(Output)
    ensures s.loopEnabled && s.sendBright && s.returnBright && s.focus ==> |Evaluation(m, s).stages| == 25
  {
    ChainLayout(m, s);
    assert |Layout(Evaluation(m, s).stages)| == |Evaluation(m, s).stages|;
  }

  /** Position of a section along the chain. */
  function Rank(section: Section): nat {
    match section
    case Input => 0
    case Preamp => 1
    case FxLoop => 2
    case Power => 3
    case Output => 4
  }

  ghost predicate SlotsInOrder(l: seq<Slot>) {
    forall i, j :: 0 <= i <= j < |l| ==> Rank(l[i].1) <= Rank(l[j].1)
  }

  lemma OrderedConcat(a: seq<Slot>, b: seq<Slot>, k: nat)
    requires SlotsInOrder(a) && forall i :: 0 <= i < |a| ==> Rank(a[i].1) <= k
    requires forall i :: 0 <= i < |b| ==> Rank(b[i].1) == k
    ensures SlotsInOrder(a + b) && forall i :: 0 <= i < |a + b| ==> Rank((a + b)[i].1) <= k
  {
  }

  lemma ExpectedLayoutInOrder(s: AmpState)
    ensures SlotsInOrder(ExpectedLayout(s))
  {
    OrderedConcat(InputLayout, PreampLayout(s.era), 1);
    OrderedConcat(InputLayout + PreampLayout(s.era), FxLoopLayout(s), 2);
    OrderedConcat(InputLayout + PreampLayout(s.era) + FxLoopLayout(s), PowerLayout(s), 3);
    OrderedConcat(InputLayout + PreampLayout(s.era) + FxLoopLayout(s) + PowerLayout(s), OutputLayout, 4);
  }

  /** Sections never interleave: Input, Preamp, FX loop, Power and Output records come in that order. */
  lemma SectionsInOrder(m: Libm, s: AmpState)
    ensures var st := Evaluation(m, s).stages;
      forall i, j :: 0 <= i <= j < |st| ==> Rank(st[i].section) <= Rank(st[j].section)
  {
    ChainLayout(m, s);
    ExpectedLayoutInOrder(s);
    var st := Evaluation(m, s).stages;
    assert forall i :: 0 <= i < |st| ==> st[i].section == Layout(st)[i].1;
  }

  lemma BySectionAppend(a: seq<Stage>, b: seq<Stage>, section: Section)
    ensures GetStagesBySection(a + b, section) == GetStagesBySection(a, section) + GetStagesBySection(b, section)
  {
    JsArray.FilterAppend(a, b, InSection(section));
  }

  /** Where each section's slots sit in the expected layout. */
  lemma ExpectedSectionSpans(s: AmpState)
    ensures var e := ExpectedLayout(s);
      var loopEnd := 13 + |FxLoopLayout(s)|;
      && |e| == loopEnd + |PowerLayout(s)| + 1
      && (forall i :: 0 <= i < 3 ==> e[i].1 == Input)
      && (forall i :: 3 <= i < 13 ==> e[i].1 == Preamp)
      && (forall i :: 13 <= i < loopEnd ==> e[i].1 == FxLoop)
      && (forall i :: loopEnd <= i < |e| - 1 ==> e[i].1 == Power)
      && e[|e| - 1].1 == Output
  {
    var l := FxLoopLayout(s);
    var w := PowerLayout(s);
    assert forall i :: 0 <= i < |l| ==> l[i].1 == FxLoop;
    assert forall i :: 0 <= i < |w| ==> w[i].1 == Power;
  }

  /** A section whose records are exactly those at `x..y` filters into that slice. */
  lemma BlockFilter(st: seq<Stage>, x: nat, y: nat, k: Section)
    requires x <= y <= |st|
    requires forall i :: 0 <= i < |st| ==> (st[i].section == k <==> x <= i < y)
    ensures GetStagesBySection(st, k) == st[x..y]
  {
    JsArray.FilterSlice(st, InSection(k), x, y);
  }

  /** A trace made of five single-section blocks, in chain order: Input, Preamp, FX loop, Power, Output. */
  predicate FiveBlockShape(st: seq<Stage>, b: nat, c: nat) {
    && 3 <= b <= c < |st|
    && (forall i :: 0 <= i < 3 ==> st[i].section == Input)
    && (forall i :: 3 <= i < b ==> st[i].section == Preamp)
    && (forall i :: b <= i < c ==> st[i].section == FxLoop)
    && (forall i :: c <= i < |st| - 1 ==> st[i].section == Power)
    && st[|st| - 1].section == Output
  }

  /** A trace made of five single-section blocks, in chain order, filters into those blocks. */
  lemma FiveBlocks(st: seq<Stage>, b: nat, c: nat)
    requires 3 <= b <= c < |st|
    requires forall i :: 0 <= i < 3 ==> st[i].section == Input
    requires forall i :: 3 <= i < b ==> st[i].section == Preamp
    requires forall i :: b <= i < c ==> st[i].section == FxLoop
    requires forall i :: c <= i < |st| - 1 ==> st[i].section == Power
    requires st[|st| - 1].section == Output
    ensures GetStagesBySection(st, Input) == st[..3]
    ensures GetStagesBySection(st, Preamp) == st[3..b]
    ensures GetStagesBySection(st, FxLoop) == st[b..c]
    ensures GetStagesBySection(st, Power) == st[c..|st| - 1]
    ensures GetStagesBySection(st, Output) == [st[|st| - 1]]
  {
    assert FiveBlockShape(st, b, c);
    OuterBlocks(st, b, c);
    InnerBlocks(st, b, c);
  }

  /** The first and the last block. */
  lemma OuterBlocks(st: seq<Stage>, b: nat, c: nat)
    requires FiveBlockShape(st, b, c)
    ensures GetStagesBySection(st, Input) == st[..3]
    ensures GetStagesBySection(st, Output) == [st[|st| - 1]]
  {
    var d := |st| - 1;
    BlockFilter(st, 0, 3, Input);
    assert st[0..3] == st[..3];
    BlockFilter(st, d, |st|, Output);
    assert st[d..|st|] == [st[d]];
  }

  /** The three middle blocks. */
  lemma InnerBlocks(st: seq<Stage>, b: nat, c: nat)
    requires FiveBlockShape(st, b, c)
    ensures GetStagesBySection(st, Preamp) == st[3..b]
    ensures GetStagesBySection(st, FxLoop) == st[b..c]
    ensures GetStagesBySection(st, Power) == st[c..|st| - 1]
  {
    BlockFilter(st, 3, b, Preamp);
    BlockFilter(st, b, c, FxLoop);
    BlockFilter(st, c, |st| - 1, Power);
  }

  /**
   * `getStagesBySection` returns exactly the contiguous block of that section:
   * 3 Input records, 10 Preamp records, the loop's records, the Power records and
   * the final Captor X record.
   */
  lemma SectionBlocks(m: Libm, s: AmpState)
    ensures var st := Evaluation(m, s).stages;
      var loopEnd := 13 + |FxLoopLayout(s)|;
      && |st| == loopEnd + |PowerLayout(s)| + 1
      && GetStagesBySection(st, Input) == st[..3]
      && GetStagesBySection(st, Preamp) == st[3..13]
      && GetStagesBySection(st, FxLoop) == st[13..loopEnd]
      && GetStagesBySection(st, Power) == st[loopEnd..|st| - 1]
      && GetStagesBySection(st, Output) == [st[|st| - 1]]
  {
    ChainLayout(m, s);
    BlocksOfLayout(Evaluation(m, s).stages, s);
  }

  /** The same for any trace laid out as expected. */
  lemma BlocksOfLayout(st: seq<Stage>, s: AmpState)
    requires Layout(st) == ExpectedLayout(s)
    ensures var loopEnd := 13 + |FxLoopLayout(s)|;
      && |st| == loopEnd + |PowerLayout(s)| + 1
      && GetStagesBySection(st, Input) == st[..3]
      && GetStagesBySection(st, Preamp) == st[3..13]
      && GetStagesBySection(st, FxLoop) == st[13..loopEnd]
      && GetStagesBySection(st, Power) == st[loopEnd..|st| - 1]
      && GetStagesBySection(st, Output) == [st[|st| - 1]]
  {
    SectionsFromLayout(st, s);
    FiveBlocks(st, 13, 13 + |FxLoopLayout(s)|);
  }

  /** A trace laid out as expected has its sections where the layout puts them. */
  lemma SectionsFromLayout(st: seq<Stage>, s: AmpState)
    requires Layout(st) == ExpectedLayout(s)
    ensures var loopEnd := 13 + |FxLoopLayout(s)|;
      && |st| == loopEnd + |PowerLayout(s)| + 1
      && (forall i :: 0 <= i < 3 ==> st[i].section == Input)
      && (forall i :: 3 <= i < 13 ==> st[i].section == Preamp)
      && (forall i :: 13 <= i < loopEnd ==> st[i].section == FxLoop)
      && (forall i :: loopEnd <= i < |st| - 1 ==> st[i].section == Power)
      && st[|st| - 1].section == Output
  {
    ExpectedSectionSpans(s);
    assert |Layout(st)| == |st|;
    assert forall i :: 0 <= i < |st| ==> st[i].section == Layout(st)[i].1;
  }

  /** Per-section counts, each within the stage-count table. */
  lemma SectionCounts(m: Libm, s: AmpState)
    ensures var st := Evaluation(m, s).stages;
      && |GetStagesBySection(st, Input)| == StageCount(Input)
      && |GetStagesBySection(st, Preamp)| == StageCount(Preamp)
      && |GetStagesBySection(st, FxLoop)| == (if s.loopEnabled then 4 + Ind(s.sendBright) + Ind(s.returnBright) else 0)
      && |GetStagesBySection(st, Power)| == 4 + Ind(s.focus)
      && |GetStagesBySection(st, Output)| == StageCount(Output)
      && forall section :: |GetStagesBySection(st, section)| <= StageCount(section)
  {
    ChainLayout(m, s);
    CountsOfLayout(Evaluation(m, s).stages, s);
  }

  lemma CountsOfLayout(st: seq<Stage>, s: AmpState)
    requires Layout(st) == ExpectedLayout(s)
    ensures && |GetStagesBySection(st, Input)| == StageCount(Input)
      && |GetStagesBySection(st, Preamp)| == StageCount(Preamp)
      && |GetStagesBySection(st, FxLoop)| == (if s.loopEnabled then 4 + Ind(s.sendBright) + Ind(s.returnBright) else 0)
      && |GetStagesBySection(st, Power)| == 4 + Ind(s.focus)
      && |GetStagesBySection(st, Output)| == StageCount(Output)
      && forall section :: |GetStagesBySection(st, section)| <= StageCount(section)
  {
    BlocksOfLayout(st, s);
    LayoutLengths(s);
  }

  /** How many slots the loop and the power section take. */
  lemma LayoutLengths(s: AmpState)
    ensures |FxLoopLayout(s)| == (if s.loopEnabled then 4 + Ind(s.sendBright) + Ind(s.returnBright) else 0)
    ensures |PowerLayout(s)| == 4 + Ind(s.focus)
  {
  }

  // ---------------------------------------------------------------- snapshots and named records

  /** The trace after the Tonestack: the first 13 records and the preamp snapshot. */
  function PreampTrace(m: Libm, s: AmpState): Trace {
    PreampSection(m, s, InputSection(m, s))
  }

  /** Later sections only append: the preamp trace is a prefix of the result, and its level is the snapshot. */
  lemma PreampPrefix(m: Libm, s: AmpState)
    ensures var pre := PreampTrace(m, s);
      && |pre.stages| == 13
      && pre.stages <= Evaluation(m, s).stages
      && pre.level == Evaluation(m, s).preampOutput
  {
    var inp := InputSection(m, s);
    var pre := PreampTrace(m, s);
    var lp := FxLoopSection(s, pre);
    var pw := PowerSection(m, s, lp);
    InputAppends(m, s);
    PreampAppends(m, s, inp);
    FxLoopAppends(s, pre);
    PowerAppends(m, s, lp);
    OutputAppends(s, pw);
    assert |Layout(pre.stages)| == |pre.stages|;
    PrefixTrans(pre.stages, lp.stages, pw.stages);
    PrefixTrans(pre.stages, pw.stages, Evaluation(m, s).stages);
  }

  lemma PrefixTrans<T>(a: seq<T>, b: seq<T>, c: seq<T>)
    requires a <= b && b <= c
    ensures a <= c
  {
    assert c[..|b|][..|a|] == c[..|a|];
  }

  /** The first record is the pickup, at its table level and with no gain or drive. */
  lemma FirstRecordIsPickup(m: Libm, s: AmpState)
    ensures Evaluation(m, s).stages[0] == Stage("Pickup", PickupLevel(s.pickup), 0.0, 0.0, Input, None)
  {
    PreampPrefix(m, s);
    RoundLevelTenths(0);
    RoundLevelTenths(-100);
    RoundLevelTenths(-80);
    RoundLevelTenths(-60);
    var inp := InputSection(m, s);
    assert inp.stages[0] == PreampTrace(m, s).stages[0];
  }

  /** The Tonestack record is the 13th, the first of that name, and shows the rounded preamp snapshot. */
  lemma TonestackShowsPreampOutput(m: Libm, s: AmpState)
    ensures var r := Evaluation(m, s);
      && r.stages[12].name == "Tonestack" && r.stages[12].section == Preamp
      && r.stages[12].level == RoundLevel(r.preampOutput)
      && FindStage(r.stages, "Tonestack") == Some(r.stages[12])
  {
    PreampPrefix(m, s);
    TonestackInPreamp(m, s);
    var pre := PreampTrace(m, s).stages;
    var st := Evaluation(m, s).stages;
    assert forall i :: 0 <= i < 13 ==> st[i] == pre[i];
  }

  /** The same facts about the preamp trace only. */
  lemma TonestackInPreamp(m: Libm, s: AmpState)
    ensures var pre := PreampTrace(m, s);
      && |pre.stages| == 13
      && pre.stages[12].name == "Tonestack" && pre.stages[12].section == Preamp
      && pre.stages[12].level == RoundLevel(pre.level)
      && forall i :: 0 <= i < 12 ==> pre.stages[i].name != "Tonestack"
  {
    var inp := InputSection(m, s);
    InputAppends(m, s);
    PreampAppends(m, s, inp);
    TonestackInLayout(PreampTrace(m, s).stages, s.era);
  }

  lemma TonestackInLayout(st: seq<Stage>, era: Era)
    requires Layout(st) == InputLayout + PreampLayout(era)
    ensures |st| == 13 && st[12].name == "Tonestack" && st[12].section == Preamp
    ensures forall i :: 0 <= i < 12 ==> st[i].name != "Tonestack"
  {
    var l := Layout(st);
    assert |l| == 13;
    assert forall i :: 0 <= i < 12 ==> l[i].0 != "Tonestack";
    assert forall i :: 0 <= i < 13 ==> st[i].name == l[i].0 && st[i].section == l[i].1;
  }

  /** The bright switches add their boost into the Gain 1 and Gain 2 records. */
  lemma BrightBoostRecorded(m: Libm, s: AmpState)
    ensures var st := Evaluation(m, s).stages;
      && st[4].name == "Gain 1" && st[4].gain == RoundLevel(LogTaper(m, s.gain1) + BrightBoostFor(s.bright1))
      && st[6].name == "Gain 2" && st[6].gain == RoundLevel(LogTaper(m, s.gain2) + BrightBoostFor(s.bright2))
  {
    PreampPrefix(m, s);
    var st := Evaluation(m, s).stages;
    assert st[4] == PreampTrace(m, s).stages[4];
    assert st[6] == PreampTrace(m, s).stages[6];
  }

  /** The loop's bright switches record the legacy `mid` boost on the send and `high` on the return. */
  lemma LoopBrightsRecorded(m: Libm, s: AmpState)
    requires s.loopEnabled
    ensures var st := Evaluation(m, s).stages;
      && (s.sendBright ==> st[14].name == "Send Brt" && st[14].section == FxLoop && st[14].gain == RoundLevel(BrightBoost.mid))
      && (s.returnBright ==>
            var j := 16 + Ind(s.sendBright);
            st[j].name == "Ret Brt" && st[j].section == FxLoop && st[j].gain == RoundLevel(BrightBoost.high))
  {
    var lp := FxLoopSection(s, PreampTrace(m, s));
    var pw := PowerSection(m, s, lp);
    PreampPrefix(m, s);
    PowerAppends(m, s, lp);
    OutputAppends(s, pw);
    PrefixTrans(lp.stages, pw.stages, Evaluation(m, s).stages);
  }

  /** V2b is a unity-gain cathode follower: it never clips, records no threshold and passes V2a's level on. */
  lemma V2bPassesThrough(m: Libm, s: AmpState)
    ensures var st := Evaluation(m, s).stages;
      && st[8].name == "V2a" && st[9].name == "V2b"
      && st[9].gain == 0.0 && st[9].drive == 0.0 && st[9].threshold == None
      && st[9].level == st[8].level
  {
    PreampPrefix(m, s);
    RoundLevelTenths(0);
    var st := Evaluation(m, s).stages;
    assert st[8] == PreampTrace(m, s).stages[8];
    assert st[9] == PreampTrace(m, s).stages[9];
  }

  /**
   * The ERA record: in Plexi mode it only passes V2b's level on; in the 80s and
   * Modern modes it shows the diode clip of V2b's output at the era threshold, so
   * the diodes never raise the level and keep it at or below their threshold.
   */
  lemma EraRecord(m: Libm, s: AmpState)
    ensures var st := Evaluation(m, s).stages;
      && st[10].name == EraStageName(s.era) && st[10].section == Preamp && st[10].threshold == None
      && (!EraClipping(s.era).enabled ==> st[10].drive == 0.0 && st[10].level == st[9].level)
      && (EraClipping(s.era).enabled ==>
            var c := DiodeClip(m, V2bOutput(m, s), EraClipping(s.era).threshold, "symmetrical");
            st[10].level == RoundLevel(c.clamped) && st[10].drive == RoundLevel(c.drive))
      && (TanhLaws(m.tanh) && EraClipping(s.era).enabled ==>
            st[10].drive >= 0.0 && st[10].level <= st[9].level && st[10].level <= EraClipping(s.era).threshold)
  {
    PreampPrefix(m, s);
    EraInPreamp(m, s);
    var pre := PreampTrace(m, s).stages;
    var st := Evaluation(m, s).stages;
    assert st[9] == pre[9] && st[10] == pre[10];
  }

  /** The unrounded level V2b hands to the ERA diodes. */
  function V2bOutput(m: Libm, s: AmpState): real {
    CascadeSection(m, s, InputSection(m, s)).level + V2b.gain
  }

  /** The same facts about the preamp trace only. */
  lemma EraInPreamp(m: Libm, s: AmpState)
    ensures var st := PreampTrace(m, s).stages;
      && |st| == 13
      && st[10].name == EraStageName(s.era) && st[10].section == Preamp && st[10].threshold == None
      && (!EraClipping(s.era).enabled ==> st[10].drive == 0.0 && st[10].level == st[9].level)
      && (EraClipping(s.era).enabled ==>
            var c := DiodeClip(m, V2bOutput(m, s), EraClipping(s.era).threshold, "symmetrical");
            st[10].level == RoundLevel(c.clamped) && st[10].drive == RoundLevel(c.drive))
      && (TanhLaws(m.tanh) && EraClipping(s.era).enabled ==>
            st[10].drive >= 0.0 && st[10].level <= st[9].level && st[10].level <= EraClipping(s.era).threshold)
  {
    var c := CascadeSection(m, s, InputSection(m, s));
    var v := Emit(c, V2b.name, c.level + V2b.gain, V2b.gain, 0.0, Preamp, None);
    var e := EraStep(m, v, s.era);
    PreampExtendsCascade(m, s, InputSection(m, s));
    assert |c.stages| == 9;
    EraStepRecord(m, v, s.era);
    var st := PreampTrace(m, s).stages;
    assert st[9] == v.stages[9];
    assert st[10] == e.stages[10];
  }

  /**
   * The record ERA appends, relative to the level it receives: the diode clip's
   * rounded output and drive at the era's threshold, or the level itself in Plexi mode.
   */
  lemma EraStepRecord(m: Libm, t: Trace, era: Era)
    ensures var r := EraStep(m, t, era).stages[|t.stages|];
      && |EraStep(m, t, era).stages| == |t.stages| + 1
      && r.name == EraStageName(era) && r.section == Preamp && r.threshold == None && r.gain == 0.0
      && (!EraClipping(era).enabled ==> r.drive == 0.0 && r.level == RoundLevel(t.level))
      && (EraClipping(era).enabled ==>
            var c := DiodeClip(m, t.level, EraClipping(era).threshold, "symmetrical");
            r.level == RoundLevel(c.clamped) && r.drive == RoundLevel(c.drive))
      && (TanhLaws(m.tanh) && EraClipping(era).enabled ==>
            r.drive >= 0.0 && r.level <= RoundLevel(t.level) && r.level <= EraClipping(era).threshold)
  {
    RoundLevelTenths(0);
    var e := EraClipping(era);
    if TanhLaws(m.tanh) && e.enabled {
      SoftClipBounded(m, t.level, e.threshold, 2.0);
      var clip := SoftClip(m, t.level, e.threshold, 2.0);
      RoundLevelMonotone(clip.clamped, t.level);
      RoundLevelMonotone(clip.clamped, e.threshold);
      RoundLevelNonNegative(clip.drive);
      RoundLevelTenths(180);
      RoundLevelTenths(120);
    }
  }

  /** Only the last slot of the expected layout is named Captor X. */
  lemma CaptorNamedOnce(s: AmpState)
    ensures var l := InputLayout + PreampLayout(s.era) + FxLoopLayout(s) + PowerLayout(s);
      forall i :: 0 <= i < |l| ==> l[i].0 != "Captor X"
  {
    var a, b, c, d := InputLayout, PreampLayout(s.era), FxLoopLayout(s), PowerLayout(s);
    assert forall i :: 0 <= i < |a| ==> a[i].0 != "Captor X";
    assert forall i :: 0 <= i < |b| ==> b[i].0 != "Captor X";
    assert forall i :: 0 <= i < |c| ==> c[i].0 != "Captor X";
    assert forall i :: 0 <= i < |d| ==> d[i].0 != "Captor X";
    var l := a + b + c + d;
    forall i | 0 <= i < |l| ensures l[i].0 != "Captor X" {
      if i < |a| { assert l[i] == a[i]; }
      else if i < |a| + |b| { assert l[i] == b[i - |a|]; }
      else if i < |a| + |b| + |c| { assert l[i] == c[i - |a| - |b|]; }
      else { assert l[i] == d[i - |a| - |b| - |c|]; }
    }
  }

  /** The last record is Captor X, the first of that name, showing the rounded final output. */
  lemma CaptorShowsFinalOutput(m: Libm, s: AmpState)
    ensures var r := Evaluation(m, s);
      var last := r.stages[|r.stages| - 1];
      && last.name == "Captor X" && last.section == Output
      && last.level == RoundLevel(r.finalOutput) && last.gain == RoundLevel(s.captorAtten)
      && FindStage(r.stages, "Captor X") == Some(last)
  {
    ChainLayout(m, s);
    var r := Evaluation(m, s);
    CaptorInLayout(r.stages, s);
    var pw := PowerSection(m, s, FxLoopSection(s, PreampTrace(m, s)));
    assert r.stages == OutputSection(s, pw).stages && r.finalOutput == OutputSection(s, pw).level;
    OutputRecord(s, pw);
  }

  /** In a trace laid out as expected, only the last record is named Captor X, and it is the Output record. */
  lemma CaptorInLayout(st: seq<Stage>, s: AmpState)
    requires Layout(st) == ExpectedLayout(s)
    ensures |st| > 0 && st[|st| - 1].name == "Captor X" && st[|st| - 1].section == Output
    ensures forall i :: 0 <= i < |st| - 1 ==> st[i].name != "Captor X"
  {
    CaptorNamedOnce(s);
    assert |Layout(st)| == |st|;
    assert forall i :: 0 <= i < |st| ==> st[i].name == Layout(st)[i].0 && st[i].section == Layout(st)[i].1;
  }

  /** The Captor X record shows the level after the attenuator and the attenuation as its gain. */
  lemma OutputRecord(s: AmpState, t: Trace)
    ensures var u := OutputSection(s, t);
      && |u.stages| == |t.stages| + 1
      && u.stages[|t.stages|].level == RoundLevel(u.level)
      && u.stages[|t.stages|].gain == RoundLevel(s.captorAtten)
  {
  }

  // ---------------------------------------------------------------- drive and threshold

  /** Names of the records that can show a non-zero drive: the tubes and the ERA diodes. */
  const ClippingNames: set<string> := {"V1a", "V1b", "V2a", "ERA (80s)", "ERA (Mod)", "PI", "Power"}

  /**
   * What every record promises: drive is never negative, pass-through records have
   * none, and a record carrying a threshold shows a level at or below it.
   */
  predicate RecordSound(st: Stage) {
    && st.drive >= 0.0
    && (st.name !in ClippingNames ==> st.drive == 0.0)
    && (st.threshold.Some? ==> st.level <= st.threshold.value)
  }

  predicate AllSound(stages: seq<Stage>) {
    forall i :: 0 <= i < |stages| ==> RecordSound(stages[i])
  }

  lemma EmitSound(t: Trace, name: string, level: real, gain: real, drive: real, section: Section, threshold: Option<real>)
    requires AllSound(t.stages) && RecordSound(MakeStage(name, level, gain, drive, section, threshold))
    ensures AllSound(Emit(t, name, level, gain, drive, section, threshold).stages)
  {
    var u := Emit(t, name, level, gain, drive, section, threshold);
    assert forall i :: 0 <= i < |t.stages| ==> u.stages[i] == t.stages[i];
  }

  lemma GainStepSound(t: Trace, name: string, gain: real, section: Section)
    requires AllSound(t.stages)
    ensures AllSound(GainStep(t, name, gain, section).stages)
  {
    RoundLevelTenths(0);
    EmitSound(t, name, t.level + gain, gain, 0.0, section, None);
  }

  /** A tube with a positive knee and a threshold on the 0.1 dB grid keeps its record sound. */
  lemma TubeStepSound(m: Libm, t: Trace, tube: TubeStage, section: Section)
    requires TanhLaws(m.tanh) && AllSound(t.stages)
    requires tube.threshold.Some? && tube.knee.Some? && tube.knee.value > 0.0
    requires tube.name in ClippingNames && RoundLevel(tube.threshold.value) == tube.threshold.value
    ensures AllSound(TubeStep(m, t, tube, section).stages)
  {
    var c := SoftClip(m, t.level + tube.gain, tube.threshold.value, tube.knee.value);
    SoftClipBounded(m, t.level + tube.gain, tube.threshold.value, tube.knee.value);
    RoundLevelNonNegative(c.drive);
    RoundLevelMonotone(c.clamped, tube.threshold.value);
    EmitSound(t, tube.name, c.clamped, tube.gain, c.drive, section, tube.threshold);
  }

  lemma InputSound(m: Libm, s: AmpState)
    ensures AllSound(InputSection(m, s).stages)
  {
    RoundLevelTenths(0);
    var t := Emit(Trace([], 0.0), "Pickup", PickupLevel(s.pickup), 0.0, 0.0, Input, None);
    EmitSound(Trace([], 0.0), "Pickup", PickupLevel(s.pickup), 0.0, 0.0, Input, None);
    var t2 := GainStep(t, "Gtr Vol", LogTaper(m, s.guitarVolume), Input);
    GainStepSound(t, "Gtr Vol", LogTaper(m, s.guitarVolume), Input);
    EmitSound(t2, "Input", t2.level - CableLoss, -CableLoss, 0.0, Input, None);
  }

  lemma CascadeSound(m: Libm, s: AmpState, t: Trace)
    requires TanhLaws(m.tanh) && AllSound(t.stages)
    ensures AllSound(CascadeSection(m, s, t).stages)
  {
    var g1 := LogTaper(m, s.gain1) + BrightBoostFor(s.bright1);
    var g2 := LogTaper(m, s.gain2) + BrightBoostFor(s.bright2);
    var trim := PussyTrimTaper(m, s.pussyTrimmer);
    CascadeStepsSound(m, t, g1, g2, trim);
    var t2 := GainStep(TubeStep(m, t, V1a, Preamp), "Gain 1", g1, Preamp);
    var t4 := GainStep(TubeStep(m, t2, V1b, Preamp), "Gain 2", g2, Preamp);
    assert CascadeSection(m, s, t) == TubeStep(m, GainStep(t4, "Pussy Trim", trim, Preamp), V2a, Preamp);
  }

  /** The cascade's six steps keep the trace sound, whatever the pots add. */
  lemma CascadeStepsSound(m: Libm, t: Trace, g1: real, g2: real, trim: real)
    requires TanhLaws(m.tanh) && AllSound(t.stages)
    ensures var t2 := GainStep(TubeStep(m, t, V1a, Preamp), "Gain 1", g1, Preamp);
      var t4 := GainStep(TubeStep(m, t2, V1b, Preamp), "Gain 2", g2, Preamp);
      AllSound(TubeStep(m, GainStep(t4, "Pussy Trim", trim, Preamp), V2a, Preamp).stages)
  {
    var t2 := GainStep(TubeStep(m, t, V1a, Preamp), "Gain 1", g1, Preamp);
    TubeGainSound(m, t, V1a, "Gain 1", g1);
    var t4 := GainStep(TubeStep(m, t2, V1b, Preamp), "Gain 2", g2, Preamp);
    TubeGainSound(m, t2, V1b, "Gain 2", g2);
    TrimTubeSound(m, t4, trim);
  }

  /** The trimmer followed by V2a keeps the trace sound. */
  lemma TrimTubeSound(m: Libm, t: Trace, trim: real)
    requires TanhLaws(m.tanh) && AllSound(t.stages)
    ensures AllSound(TubeStep(m, GainStep(t, "Pussy Trim", trim, Preamp), V2a, Preamp).stages)
  {
    GainStepSound(t, "Pussy Trim", trim, Preamp);
    RoundLevelTenths(380);
    TubeStepSound(m, GainStep(t, "Pussy Trim", trim, Preamp), V2a, Preamp);
  }

  /** A preamp tube followed by a pot keeps the trace sound. */
  lemma TubeGainSound(m: Libm, t: Trace, tube: TubeStage, name: string, gain: real)
    requires TanhLaws(m.tanh) && AllSound(t.stages)
    requires tube == V1a || tube == V1b
    ensures AllSound(GainStep(TubeStep(m, t, tube, Preamp), name, gain, Preamp).stages)
  {
    RoundLevelTenths(380);
    RoundLevelTenths(320);
    TubeStepSound(m, t, tube, Preamp);
    GainStepSound(TubeStep(m, t, tube, Preamp), name, gain, Preamp);
  }

  lemma EraStepSound(m: Libm, t: Trace, era: Era)
    requires TanhLaws(m.tanh) && AllSound(t.stages)
    ensures AllSound(EraStep(m, t, era).stages)
  {
    RoundLevelTenths(0);
    var e := EraClipping(era);
    if e.enabled {
      var c := DiodeClip(m, t.level, e.threshold, "symmetrical");
      SoftClipBounded(m, t.level, e.threshold, 2.0);
      RoundLevelNonNegative(c.drive);
      EmitSound(t, if era == Eighties then "ERA (80s)" else "ERA (Mod)", c.clamped, 0.0, c.drive, Preamp, None);
    } else {
      EmitSound(t, "ERA (60s)", t.level, 0.0, 0.0, Preamp, None);
    }
  }

  lemma PreampSound(m: Libm, s: AmpState, t: Trace)
    requires TanhLaws(m.tanh) && AllSound(t.stages)
    ensures AllSound(PreampSection(m, s, t).stages)
  {
    RoundLevelTenths(0);
    var c := CascadeSection(m, s, t);
    CascadeSound(m, s, t);
    var v := Emit(c, V2b.name, c.level + V2b.gain, V2b.gain, 0.0, Preamp, None);
    EmitSound(c, V2b.name, c.level + V2b.gain, V2b.gain, 0.0, Preamp, None);
    var e := EraStep(m, v, s.era);
    EraStepSound(m, v, s.era);
    var ms := GainStep(e, "Master", LogTaper(m, s.master), Preamp);
    GainStepSound(e, "Master", LogTaper(m, s.master), Preamp);
    assert PreampSection(m, s, t) == GainStep(ms, "Tonestack", BaseTonestackLoss + TonestackMod(s.bass, s.middle, s.treble), Preamp);
    GainStepSound(ms, "Tonestack", BaseTonestackLoss + TonestackMod(s.bass, s.middle, s.treble), Preamp);
  }

  lemma FxLoopSound(s: AmpState, t: Trace)
    requires AllSound(t.stages)
    ensures AllSound(FxLoopSection(s, t).stages)
  {
    if s.loopEnabled {
      var t1 := GainStep(t, "Send", LinearTaper(s.send), FxLoop);
      GainStepSound(t, "Send", LinearTaper(s.send), FxLoop);
      var t2 := if s.sendBright then GainStep(t1, "Send Brt", BrightBoost.mid, FxLoop) else t1;
      GainStepSound(t1, "Send Brt", BrightBoost.mid, FxLoop);
      var t3 := GainStep(t2, "Loop Out", 0.0, FxLoop);
      GainStepSound(t2, "Loop Out", 0.0, FxLoop);
      var t4 := GainStep(t3, "Return", LinearTaper(s.fxReturn), FxLoop);
      GainStepSound(t3, "Return", LinearTaper(s.fxReturn), FxLoop);
      var t5 := if s.returnBright then GainStep(t4, "Ret Brt", BrightBoost.high, FxLoop) else t4;
      GainStepSound(t4, "Ret Brt", BrightBoost.high, FxLoop);
      assert FxLoopSection(s, t) == GainStep(t5, "Recovery", LinearTaper(s.recovery) + RecoveryCompensation, FxLoop);
      GainStepSound(t5, "Recovery", LinearTaper(s.recovery) + RecoveryCompensation, FxLoop);
    }
  }

  /** The power tubes clip at 37.4 dB for positive levels, so their record stays below the 44 dB it carries. */
  lemma PowerTubesSound(m: Libm, t: Trace)
    requires TanhLaws(m.tanh) && AllSound(t.stages)
    ensures var c := AsymSoftClip(m, t.level + PowerTubes.gain, PowerTubes.threshold.value, PowerTubes.knee.value, DefaultAsymmetry);
      AllSound(Emit(t, PowerTubes.name, c.clamped, PowerTubes.gain, c.drive, Power, PowerTubes.threshold).stages)
  {
    var level := t.level + PowerTubes.gain;
    var th := AdjustedThreshold(level, 44.0, DefaultAsymmetry);
    var c := SoftClip(m, level, th, 8.0);
    SoftClipBounded(m, level, th, 8.0);
    assert c.clamped <= 44.0;
    RoundLevelMonotone(c.clamped, 44.0);
    RoundLevelTenths(440);
    RoundLevelNonNegative(c.drive);
    EmitSound(t, PowerTubes.name, c.clamped, PowerTubes.gain, c.drive, Power, PowerTubes.threshold);
  }

  lemma PowerSound(m: Libm, s: AmpState, t: Trace)
    requires TanhLaws(m.tanh) && AllSound(t.stages)
    ensures AllSound(PowerSection(m, s, t).stages)
  {
    var t3 := PowerPots(m, s, t);
    PowerPotsSound(m, s, t);
    PowerTubeStagesSound(m, t3);
    var t4 := TubeStep(m, t3, PhaseInverter, Power);
    var c := AsymSoftClip(m, t4.level + PowerTubes.gain, PowerTubes.threshold.value, PowerTubes.knee.value, DefaultAsymmetry);
    assert PowerSection(m, s, t) == Emit(t4, PowerTubes.name, c.clamped, PowerTubes.gain, c.drive, Power, PowerTubes.threshold);
  }

  lemma PowerPotsSound(m: Libm, s: AmpState, t: Trace)
    requires AllSound(t.stages)
    ensures AllSound(PowerPots(m, s, t).stages)
  {
    var t1 := if s.focus then GainStep(t, "Focus", 1.0, Power) else t;
    GainStepSound(t, "Focus", 1.0, Power);
    var t2 := GainStep(t1, "Presence", NfbGain(m, s.presence), Power);
    GainStepSound(t1, "Presence", NfbGain(m, s.presence), Power);
    GainStepSound(t2, "Resonance", NfbGain(m, s.resonance), Power);
  }

  /** The phase inverter and the power tubes keep the trace sound. */
  lemma PowerTubeStagesSound(m: Libm, t: Trace)
    requires TanhLaws(m.tanh) && AllSound(t.stages)
    ensures var t4 := TubeStep(m, t, PhaseInverter, Power);
      var c := AsymSoftClip(m, t4.level + PowerTubes.gain, PowerTubes.threshold.value, PowerTubes.knee.value, DefaultAsymmetry);
      AllSound(Emit(t4, PowerTubes.name, c.clamped, PowerTubes.gain, c.drive, Power, PowerTubes.threshold).stages)
  {
    RoundLevelTenths(400);
    TubeStepSound(m, t, PhaseInverter, Power);
    PowerTubesSound(m, TubeStep(m, t, PhaseInverter, Power));
  }

  /**
   * Given tanh's laws, every record of every evaluation is sound: no negative drive,
   * no drive on pass-through stages, and no level above a recorded threshold.
   */
  lemma RecordsSound(m: Libm, s: AmpState)
    requires TanhLaws(m.tanh)
    ensures forall i :: 0 <= i < |Evaluation(m, s).stages| ==> RecordSound(Evaluation(m, s).stages[i])
  {
    var inp := InputSection(m, s);
    InputSound(m, s);
    var pre := PreampSection(m, s, inp);
    PreampSound(m, s, inp);
    var lp := FxLoopSection(s, pre);
    FxLoopSound(s, pre);
    var pw := PowerSection(m, s, lp);
    PowerSound(m, s, lp);
    GainStepSound(pw, "Captor X", s.captorAtten, Output);
    assert Evaluation(m, s).stages == OutputSection(s, pw).stages;
  }

  // ---------------------------------------------------------------- which controls matter where

  /** The controls the first 13 stages read. */
  predicate SamePreampControls(s1: AmpState, s2: AmpState) {
    && s1.pickup == s2.pickup && s1.guitarVolume == s2.guitarVolume
    && s1.gain1 == s2.gain1 && s1.bright1 == s2.bright1 && s1.gain2 == s2.gain2 && s1.bright2 == s2.bright2
    && s1.pussyTrimmer == s2.pussyTrimmer && s1.era == s2.era && s1.master == s2.master
    && s1.bass == s2.bass && s1.middle == s2.middle && s1.treble == s2.treble
  }

  /** The preamp records and snapshot depend only on the preamp controls, never on the loop, power or output ones. */
  lemma PreampIgnoresLaterControls(m: Libm, s1: AmpState, s2: AmpState)
    requires SamePreampControls(s1, s2)
    ensures Evaluation(m, s1).preampOutput == Evaluation(m, s2).preampOutput
    ensures Evaluation(m, s1).stages[..13] == Evaluation(m, s2).stages[..13]
  {
    SamePreampTrace(m, s1, s2);
    PreampPrefix(m, s1);
    PreampPrefix(m, s2);
  }

  lemma SamePreampTrace(m: Libm, s1: AmpState, s2: AmpState)
    requires SamePreampControls(s1, s2)
    ensures PreampTrace(m, s1) == PreampTrace(m, s2)
  {
    var inp := InputSection(m, s1);
    assert inp == InputSection(m, s2);
    SameCascade(m, s1, s2, inp);
    var c := CascadeSection(m, s1, inp);
    var v := Emit(c, V2b.name, c.level + V2b.gain, V2b.gain, 0.0, Preamp, None);
    var e := EraStep(m, v, s1.era);
    assert e == EraStep(m, v, s2.era);
  }

  lemma SameCascade(m: Libm, s1: AmpState, s2: AmpState, t: Trace)
    requires SamePreampControls(s1, s2)
    ensures CascadeSection(m, s1, t) == CascadeSection(m, s2, t)
  {
  }

  /** With the loop off, the loop's own controls change nothing at all. */
  lemma LoopOffIgnoresLoopControls(m: Libm, s: AmpState, send: real, sendBright: bool, fxReturn: real, returnBright: bool, recovery: real)
    requires !s.loopEnabled
    ensures Evaluation(m, s)
         == Evaluation(m, s.(send := send, sendBright := sendBright, fxReturn := fxReturn, returnBright := returnBright, recovery := recovery))
  {
    var s2 := s.(send := send, sendBright := sendBright, fxReturn := fxReturn, returnBright := returnBright, recovery := recovery);
    SamePreampTrace(m, s, s2);
    var pre := PreampTrace(m, s);
    SameAfterLoop(m, s, s2, pre);
  }

  /** With the loop off in both states and the same power and output controls, the rest of the chain agrees. */
  lemma SameAfterLoop(m: Libm, s1: AmpState, s2: AmpState, t: Trace)
    requires !s1.loopEnabled && !s2.loopEnabled
    requires s1.focus == s2.focus && s1.presence == s2.presence && s1.resonance == s2.resonance
    requires s1.captorAtten == s2.captorAtten
    ensures OutputSection(s1, PowerSection(m, s1, FxLoopSection(s1, t)))
         == OutputSection(s2, PowerSection(m, s2, FxLoopSection(s2, t)))
  {
    assert FxLoopSection(s1, t) == t == FxLoopSection(s2, t);
    assert PowerSection(m, s1, t) == PowerSection(m, s2, t);
  }

  /** Enabling the loop lengthens the trace by exactly the loop's records. */
  lemma LoopAddsItsRecords(m: Libm, s: AmpState)
    ensures |Evaluation(m, s.(loopEnabled := true)).stages|
         == |Evaluation(m, s.(loopEnabled := false)).stages| + 4 + Ind(s.sendBright) + Ind(s.returnBright)
  {
    StageTotal(m, s.(loopEnabled := true));
    StageTotal(m, s.(loopEnabled := false));
  }

  // ---------------------------------------------------------------- scenarios

  /**
   * With the guitar volume and Gain 1 full up, whatever the pickup and bright
   * switch, V1a stays clean and V1b is driven into clipping by more than 22 dB.
   */
  lemma FullGainDrivesV1b(m: Libm, s: AmpState)
    requires TanhLaws(m.tanh) && Log10Anchors(m.log10)
    requires s.guitarVolume == 10.0 && s.gain1 == 10.0
    ensures var st := Evaluation(m, s).stages;
      && st[3].name == "V1a" && st[3].drive == 0.0
      && st[5].name == "V1b" && st[5].drive >= 22.5
  {
    PreampPrefix(m, s);
    FullGainPreamp(m, s);
    var pre := PreampTrace(m, s).stages;
    var st := Evaluation(m, s).stages;
    assert st[3] == pre[3] && st[5] == pre[5];
  }

  /** The same facts about the preamp trace only. */
  lemma FullGainPreamp(m: Libm, s: AmpState)
    requires TanhLaws(m.tanh) && Log10Anchors(m.log10)
    requires s.guitarVolume == 10.0 && s.gain1 == 10.0
    ensures var pre := PreampTrace(m, s).stages;
      && |pre| == 13
      && pre[3].name == "V1a" && pre[3].drive == 0.0
      && pre[5].name == "V1b" && pre[5].drive >= 22.5
  {
    LogTaperEnds(m);
    var inp := InputSection(m, s);
    assert -10.5 <= inp.level <= -6.5;
    var t1 := TubeStep(m, inp, V1a, Preamp);
    V1aClean(m, inp);
    var t2 := GainStep(t1, "Gain 1", LogTaper(m, s.gain1) + BrightBoostFor(s.bright1), Preamp);
    V1bDriven(m, t2);
    var t3 := TubeStep(m, t2, V1b, Preamp);
    var c := CascadeSection(m, s, inp);
    assert c.stages[3] == t1.stages[3];
    assert c.stages[5] == t3.stages[5];
    PreampExtendsCascade(m, s, inp);
  }

  /** The preamp section keeps the cascade's records. */
  lemma PreampExtendsCascade(m: Libm, s: AmpState, t: Trace)
    ensures CascadeSection(m, s, t).stages <= PreampSection(m, s, t).stages
    ensures |CascadeSection(m, s, t).stages| == |t.stages| + 6
  {
  }

  lemma V1aClean(m: Libm, t: Trace)
    requires t.level <= -3.0
    ensures TubeStep(m, t, V1a, Preamp).level == t.level + 35.0
    ensures TubeStep(m, t, V1a, Preamp).stages[|t.stages|].drive == 0.0
  {
    RoundLevelTenths(0);
    SoftClipBelowOnset(m, t.level + 35.0, 38.0, 6.0);
  }

  lemma V1bDriven(m: Libm, t: Trace)
    requires TanhLaws(m.tanh) && t.level >= 24.5
    ensures TubeStep(m, t, V1b, Preamp).stages[|t.stages|].drive >= 22.5
  {
    RoundLevelTenths(225);
    SoftClipCompresses(m, t.level + 30.0, 32.0, 6.0);
    var c := SoftClip(m, t.level + 30.0, 32.0, 6.0);
    RoundLevelMonotone(22.5, c.drive);
  }

  /** The factory state: 22 records, from the bridge pickup at -6 dB to Captor X. */
  lemma DefaultStateChain(m: Libm)
    ensures var st := Evaluation(m, DefaultState).stages;
      && |st| == 22
      && st[0] == Stage("Pickup", -6.0, 0.0, 0.0, Input, None)
      && st[21].name == "Captor X"
  {
    StageTotal(m, DefaultState);
    FirstRecordIsPickup(m, DefaultState);
    CaptorShowsFinalOutput(m, DefaultState);
  }

  /** `getHeavyClippingStages` is `getClippingStages` narrowed to drive above 3. */
  lemma HeavyClippingNarrowsClipping(stages: seq<Stage>)
    ensures GetHeavyClippingStages(stages) == JsArray.Filter(GetClippingStages(stages), IsHeavilyClipping)
  {
    JsArray.FilterNarrows(stages, IsHeavilyClipping, IsClipping);
  }
}
