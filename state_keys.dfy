/**
 * Control-id to state-key mapping (src/js/core/state.js): strip one trailing
 * `-sf`, look the id up in an explicit table, otherwise turn kebab-case into
 * camelCase.
 */
module StateKeys {
  import JsArray

  /** `controlToStateKey`. */
  const ControlToStateKey: map<string, string> := map[
    "guitar-volume" := "guitarVolume", "pussy-trimmer" := "pussyTrimmer",
    "loop-bypass" := "loopEnabled", "send-bright" := "sendBright", "return-bright" := "returnBright",
    "gain1" := "gain1", "gain2" := "gain2", "bright1" := "bright1", "bright2" := "bright2",
    "send" := "send", "return" := "return", "recovery" := "recovery", "master" := "master",
    "focus" := "focus", "presence" := "presence", "resonance" := "resonance",
    "bass" := "bass", "middle" := "middle", "treble" := "treble"
  ]

  predicate IsLower(c: char) {
    'a' <= c <= 'z'
  }

  function ToUpper(c: char): (u: char)
    requires IsLower(c)
    ensures 'A' <= u <= 'Z'
    ensures u as int == c as int - 32
  {
    (c as int - 32) as char
  }

  predicate EndsWith(s: string, suffix: string) {
    |suffix| <= |s| && s[|s| - |suffix|..] == suffix
  }

  /** `id.replace(/-sf$/, '')`: drop one `-sf` at the very end. */
  function StripSf(id: string): (r: string)
    ensures EndsWith(id, "-sf") ==> r + "-sf" == id
    ensures !EndsWith(id, "-sf") ==> r == id
  {
    if EndsWith(id, "-sf") then id[..|id| - 3] else id
  }

  /** A `-` directly followed by a lower-case letter starts at `i`. */
  predicate PairAt(s: string, i: int) {
    0 <= i && i + 1 < |s| && s[i] == '-' && IsLower(s[i + 1])
  }

  /** The number of positions where a `-` is followed by a lower-case letter. */
  function PairCount(s: string): nat {
    if |s| < 2 then 0 else (if PairAt(s, 0) then 1 else 0) + PairCount(s[1..])
  }

  /** `s.replace(/-([a-z])/g, (m, c) => c.toUpperCase())`: a left-to-right scan. */
  function Camel(s: string): string {
    if s == [] then []
    else if PairAt(s, 0) then [ToUpper(s[1])] + Camel(s[2..])
    else [s[0]] + Camel(s[1..])
  }

  /** `getStateKey`. */
  function GetStateKey(controlId: string): string {
    var baseId := StripSf(controlId);
    if baseId in ControlToStateKey then ControlToStateKey[baseId] else Camel(baseId)
  }

  // ---------------------------------------------------------------- the camelCase rewrite

  /** The rewrite starts with the upper-cased letter of a leading pair, else with the first character. */
  lemma CamelHead(s: string)
    requires s != []
    ensures Camel(s) != []
    ensures Camel(s)[0] == if PairAt(s, 0) then ToUpper(s[1]) else s[0]
  {
  }

  /** The result has no `-` followed by a lower-case letter. */
  lemma {:induction false} CamelHasNoPair(s: string)
    ensures PairCount(Camel(s)) == 0
  {
    if s != [] {
      if PairAt(s, 0) {
        CamelHasNoPair(s[2..]);
        assert Camel(s)[1..] == Camel(s[2..]);
      } else {
        CamelHasNoPair(s[1..]);
        assert Camel(s)[1..] == Camel(s[1..]);
        if |s| >= 2 {
          CamelHead(s[1..]);
        }
      }
    }
  }

  /** Each pair shortens the result by one character. */
  lemma {:induction false} CamelLength(s: string)
    ensures |Camel(s)| == |s| - PairCount(s)
  {
    if s != [] {
      if PairAt(s, 0) {
        CamelLength(s[2..]);
        assert s[1..][1..] == s[2..];
        assert !PairAt(s[1..], 0);
      } else {
        CamelLength(s[1..]);
      }
    }
  }

  /** A string with no pair is its own rewrite. */
  lemma {:induction false} CamelIdentity(s: string)
    requires PairCount(s) == 0
    ensures Camel(s) == s
  {
    if s != [] {
      CamelIdentity(s[1..]);
    }
  }

  /** The result can never end in `-sf`, since that ends in a pair. */
  lemma NoPairNoSf(s: string)
    requires PairCount(s) == 0
    ensures !EndsWith(s, "-sf")
  {
    if EndsWith(s, "-sf") {
      PairAtCounts(s, |s| - 3);
    }
  }

  lemma {:induction false} PairAtCounts(s: string, i: int)
    requires PairAt(s, i)
    ensures PairCount(s) > 0
  {
    if i > 0 {
      PairAtCounts(s[1..], i - 1);
    }
  }

  // ---------------------------------------------------------------- getStateKey

  /** The kebab fallback: no pair survives, and the key is shorter by the number of pairs. */
  lemma FallbackShape(controlId: string)
    requires StripSf(controlId) !in ControlToStateKey
    ensures PairCount(GetStateKey(controlId)) == 0
    ensures |GetStateKey(controlId)| == |StripSf(controlId)| - PairCount(StripSf(controlId))
  {
    CamelHasNoPair(StripSf(controlId));
    CamelLength(StripSf(controlId));
  }

  /** A signal-flow duplicate `id-sf` reads the same key as `id`, for every id without its own `-sf`. */
  lemma SignalFlowTwin(id: string)
    requires !EndsWith(id, "-sf")
    ensures GetStateKey(id + "-sf") == GetStateKey(id)
  {
    assert EndsWith(id + "-sf", "-sf");
    assert (id + "-sf")[..|id|] == id;
  }

  /** The explicit table wins over the fallback: the kebab-cased knob ids and the renamed switches. */
  lemma TableExamples()
    ensures GetStateKey("loop-bypass") == "loopEnabled"
    ensures GetStateKey("loop-bypass-sf") == "loopEnabled"
    ensures GetStateKey("guitar-volume") == "guitarVolume"
    ensures GetStateKey("return-bright-sf") == "returnBright"
  {
    assert !EndsWith("loop-bypass", "-sf");
    assert EndsWith("loop-bypass-sf", "-sf");
    assert !EndsWith("guitar-volume", "-sf");
    assert EndsWith("return-bright-sf", "-sf");
    assert "loop-bypass-sf"[..11] == "loop-bypass";
    assert "return-bright-sf"[..13] == "return-bright";
  }

  /** The table's values are identifiers: no `-` at all. */
  lemma TableValuesHaveNoPair()
    ensures forall k :: k in ControlToStateKey ==> PairCount(ControlToStateKey[k]) == 0
  {
    forall k | k in ControlToStateKey ensures PairCount(ControlToStateKey[k]) == 0 {
      var v := ControlToStateKey[k];
      assert v in ControlToStateKey.Values;
      assert forall i :: 0 <= i < |v| ==> v[i] != '-';
      NoPairInIdentifier(v);
    }
  }

  /** The table renames only hyphenated ids. */
  lemma RenamedKeysAreHyphenated()
    ensures forall k :: k in ControlToStateKey ==> ControlToStateKey[k] == k || PairAt(k, JsArray.IndexOf(k, '-'))
  {
    forall k | k in ControlToStateKey && ControlToStateKey[k] != k
      ensures PairAt(k, JsArray.IndexOf(k, '-'))
    {
      assert k in ["guitar-volume", "pussy-trimmer", "loop-bypass", "send-bright", "return-bright"];
      HyphenatedKey(k);
    }
  }

  /** A `-` that `indexOf` finds first and that a lower-case letter follows is a pair. */
  lemma FirstDashPair(k: string, i: nat)
    requires i + 1 < |k| && k[i] == '-' && '-' !in k[..i] && IsLower(k[i + 1])
    ensures PairAt(k, JsArray.IndexOf(k, '-'))
  {
    JsArray.IndexOfFirst(k, '-', i);
  }

  /** Each renamed key has its pair at the `-` `indexOf` finds. */
  lemma HyphenatedKey(k: string)
    requires k in ["guitar-volume", "pussy-trimmer", "loop-bypass", "send-bright", "return-bright"]
    ensures PairAt(k, JsArray.IndexOf(k, '-'))
  {
    if k == "guitar-volume" || k == "return-bright" {
      FirstDashPair(k, 6);
    } else if k == "pussy-trimmer" {
      FirstDashPair(k, 5);
    } else {
      FirstDashPair(k, 4);
    }
  }

  /** Every table key without a pair maps to itself. */
  lemma PairFreeKeysMapToThemselves()
    ensures forall k :: k in ControlToStateKey && PairCount(k) == 0 ==> ControlToStateKey[k] == k
  {
    RenamedKeysAreHyphenated();
    forall k | k in ControlToStateKey && ControlToStateKey[k] != k ensures PairCount(k) > 0 {
      PairAtCounts(k, JsArray.IndexOf(k, '-'));
    }
  }

  /** A string with no `-` has no pair. */
  lemma {:induction false} NoPairInIdentifier(s: string)
    requires forall i :: 0 <= i < |s| ==> s[i] != '-'
    ensures PairCount(s) == 0
  {
    if |s| >= 2 {
      NoPairInIdentifier(s[1..]);
    }
  }

  /** Mapping a state key again gives it back: `getStateKey(getStateKey(x)) == getStateKey(x)`. */
  lemma GetStateKeyIdempotent(x: string)
    ensures GetStateKey(GetStateKey(x)) == GetStateKey(x)
  {
    var k := GetStateKey(x);
    TableValuesHaveNoPair();
    PairFreeKeysMapToThemselves();
    if StripSf(x) !in ControlToStateKey {
      CamelHasNoPair(StripSf(x));
    }
    assert PairCount(k) == 0;
    NoPairNoSf(k);
    if k !in ControlToStateKey {
      CamelIdentity(k);
    }
  }
}
