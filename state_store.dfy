/**
 * The application state store (src/js/core/state.js): a key/value record with
 * change-only notification and an ordered subscriber list. Listener callbacks
 * are replaced by a log of deliveries, one per listener and notification.
 */
module StateStore {
  import opened Wrappers
  import opened AmpConfig
  import JsArray

  // ---------------------------------------------------------------- values and records

  /** The JavaScript values the store holds; `Undefined` is what a missing key reads as. */
  datatype Value = Undefined | Null | Num(n: real) | Bool(b: bool) | Str(s: string)

  /** A state object: property name to value. */
  type Record = map<string, Value>

  /** `record[key]`. */
  function Lookup(r: Record, key: string): Value {
    if key in r then r[key] else Undefined
  }

  /** JavaScript truthiness (`!!v`). */
  predicate Truthy(v: Value) {
    match v
    case Undefined => false
    case Null => false
    case Num(n) => n != 0.0
    case Bool(b) => b
    case Str(s) => s != ""
  }

  function PickupName(p: Pickup): string {
    match p
    case Neck => "neck"
    case Middle => "middle"
    case Bridge => "bridge"
  }

  function EraName(e: Era): string {
    match e
    case Plexi => "plexi"
    case Eighties => "80s"
    case Modern => "modern"
  }

  function BrightName(b: Bright): string {
    match b
    case Off => "off"
    case Subtle => "subtle"
    case Aggressive => "aggressive"
  }

  /** The state object of a control state, under the property names the source uses. */
  function Encode(s: AmpState): Record {
    map[
      "pickup" := Str(PickupName(s.pickup)), "guitarVolume" := Num(s.guitarVolume),
      "gain1" := Num(s.gain1), "bright1" := Str(BrightName(s.bright1)),
      "gain2" := Num(s.gain2), "bright2" := Str(BrightName(s.bright2)),
      "era" := Str(EraName(s.era)),
      "bass" := Num(s.bass), "middle" := Num(s.middle), "treble" := Num(s.treble),
      "loopEnabled" := Bool(s.loopEnabled), "send" := Num(s.send), "sendBright" := Bool(s.sendBright),
      "return" := Num(s.fxReturn), "returnBright" := Bool(s.returnBright), "recovery" := Num(s.recovery),
      "master" := Num(s.master), "focus" := Bool(s.focus),
      "presence" := Num(s.presence), "resonance" := Num(s.resonance),
      "pussyTrimmer" := Num(s.pussyTrimmer), "captorAtten" := Num(s.captorAtten),
      "meterPanelVisible" := Bool(s.meterPanelVisible), "viewMode" := Str(s.viewMode)
    ]
  }

  /** `createInitialState`: a fresh copy of the default state object. */
  function InitialRecord(): Record {
    Encode(DefaultState)
  }

  /** The fresh state's selectors: bridge pickup, the 80s era, master at 3, no Captor attenuation. */
  lemma InitialSelectors()
    ensures Lookup(InitialRecord(), "pickup") == Str("bridge") && Lookup(InitialRecord(), "era") == Str("80s")
    ensures Lookup(InitialRecord(), "master") == Num(3.0) && Lookup(InitialRecord(), "captorAtten") == Num(0.0)
  {
  }

  /** The fresh state's switches: the loop engaged, every other switch off. */
  lemma InitialSwitches()
    ensures Lookup(InitialRecord(), "loopEnabled") == Bool(true) && Lookup(InitialRecord(), "focus") == Bool(false)
    ensures Lookup(InitialRecord(), "sendBright") == Bool(false) && Lookup(InitialRecord(), "returnBright") == Bool(false)
    ensures Lookup(InitialRecord(), "bright1") == Str("off") && Lookup(InitialRecord(), "bright2") == Str("off")
  {
  }

  // ---------------------------------------------------------------- notifications

  /** A notification: `(key, newValue, oldValue)`, or the `('*', state, null)` sent by `reset`. */
  datatype Event = Changed(key: string, newValue: Value, oldValue: Value) | ResetAll(snapshot: Record)

  /** Listeners are known by identity only. */
  type ListenerId = nat

  /** One call of one listener. */
  datatype Delivery = Delivery(listener: ListenerId, event: Event)

  /** `_notifyListeners(e)`: every subscribed listener, in subscription order, receives `e`. */
  function Deliveries(ls: seq<ListenerId>, e: Event): seq<Delivery> {
    seq(|ls|, i requires 0 <= i < |ls| => Delivery(ls[i], e))
  }

  /** The deliveries of a sequence of notifications. */
  function Broadcast(ls: seq<ListenerId>, es: seq<Event>): (d: seq<Delivery>)
    ensures |d| == |ls| * |es|
  {
    if es == [] then []
    else Broadcast(ls, es[..|es| - 1]) + Deliveries(ls, es[|es| - 1])
  }

  /** One more notification appends its deliveries. */
  lemma BroadcastLast(ls: seq<ListenerId>, es: seq<Event>, e: Event)
    ensures Broadcast(ls, es + [e]) == Broadcast(ls, es) + Deliveries(ls, e)
  {
    assert (es + [e])[..|es|] == es;
  }

  /** The deliveries of successive runs of notifications concatenate. */
  lemma {:induction false} BroadcastSnoc(ls: seq<ListenerId>, es: seq<Event>, more: seq<Event>)
    ensures Broadcast(ls, es + more) == Broadcast(ls, es) + Broadcast(ls, more)
    decreases |more|
  {
    if more == [] {
      assert es + more == es;
    } else {
      var init, last := more[..|more| - 1], more[|more| - 1];
      assert more == init + [last];
      assert es + more == (es + init) + [last];
      BroadcastSnoc(ls, es, init);
      BroadcastLast(ls, es + init, last);
      BroadcastLast(ls, init, last);
    }
  }

  // ---------------------------------------------------------------- set, update, toggle

  /** The record after `set(key, value)`. */
  function SetRecord(r: Record, key: string, value: Value): (r': Record)
    ensures Lookup(r', key) == value
    ensures forall k :: k != key ==> Lookup(r', k) == Lookup(r, k)
    ensures Lookup(r, key) == value ==> r' == r
  {
    if Lookup(r, key) != value then r[key := value] else r
  }

  /** The notifications of `set(key, value)`: one exactly when the value changes (`!==`). */
  function SetEvents(r: Record, key: string, value: Value): (es: seq<Event>)
    ensures es == [] <==> Lookup(r, key) == value
    ensures es != [] ==> es == [Changed(key, value, Lookup(r, key))]
  {
    if Lookup(r, key) != value then [Changed(key, value, Lookup(r, key))] else []
  }

  /** The record after `update(updates)`: the entries are `set` one after another, in entry order. */
  function UpdateRecord(r: Record, updates: seq<(string, Value)>): Record {
    if updates == [] then r
    else
      var last := updates[|updates| - 1];
      SetRecord(UpdateRecord(r, updates[..|updates| - 1]), last.0, last.1)
  }

  /** The notifications of `update(updates)`, in entry order. */
  function UpdateEvents(r: Record, updates: seq<(string, Value)>): seq<Event> {
    if updates == [] then []
    else
      var last := updates[|updates| - 1];
      UpdateEvents(r, updates[..|updates| - 1]) + SetEvents(UpdateRecord(r, updates[..|updates| - 1]), last.0, last.1)
  }

  /** One more entry: one more `set` on the record so far, and its notifications appended. */
  lemma UpdateStep(r: Record, updates: seq<(string, Value)>, i: nat)
    requires i < |updates|
    ensures UpdateRecord(r, updates[..i + 1]) == SetRecord(UpdateRecord(r, updates[..i]), updates[i].0, updates[i].1)
    ensures UpdateEvents(r, updates[..i + 1]) == UpdateEvents(r, updates[..i]) + SetEvents(UpdateRecord(r, updates[..i]), updates[i].0, updates[i].1)
  {
    assert updates[..i + 1][..i] == updates[..i];
  }

  /**
   * One more entry of an update: one more set on the record, and that set's deliveries
   * appended to a log holding those of the entries before it.
   */
  lemma UpdateLogStep(log: seq<Delivery>, ls: seq<ListenerId>, r: Record, updates: seq<(string, Value)>, i: nat)
    requires i < |updates|
    ensures UpdateRecord(r, updates[..i + 1]) == SetRecord(UpdateRecord(r, updates[..i]), updates[i].0, updates[i].1)
    ensures log + Broadcast(ls, UpdateEvents(r, updates[..i + 1]))
         == (log + Broadcast(ls, UpdateEvents(r, updates[..i]))) + Broadcast(ls, SetEvents(UpdateRecord(r, updates[..i]), updates[i].0, updates[i].1))
  {
    UpdateStep(r, updates, i);
    BroadcastSnoc(ls, UpdateEvents(r, updates[..i]), SetEvents(UpdateRecord(r, updates[..i]), updates[i].0, updates[i].1));
  }

  /** A key no entry names keeps its value. */
  lemma {:induction false} UpdateLeavesOtherKeys(r: Record, updates: seq<(string, Value)>, key: string)
    requires forall i :: 0 <= i < |updates| ==> updates[i].0 != key
    ensures Lookup(UpdateRecord(r, updates), key) == Lookup(r, key)
  {
    if updates != [] {
      UpdateLeavesOtherKeys(r, updates[..|updates| - 1], key);
    }
  }

  /** The last entry for a key decides its value. */
  lemma {:induction false} UpdateLastEntryWins(r: Record, updates: seq<(string, Value)>, i: nat)
    requires i < |updates|
    requires forall j :: i < j < |updates| ==> updates[j].0 != updates[i].0
    ensures Lookup(UpdateRecord(r, updates), updates[i].0) == updates[i].1
  {
    if i < |updates| - 1 {
      UpdateLastEntryWins(r, updates[..|updates| - 1], i);
    }
  }

  /**
   * `update` notifies only real changes: every notification names a key of the
   * updates, carries a new value different from the old one, and there is at most
   * one per entry.
   */
  lemma {:induction false} UpdateNotifiesOnlyChanges(r: Record, updates: seq<(string, Value)>)
    ensures |UpdateEvents(r, updates)| <= |updates|
    ensures forall e :: e in UpdateEvents(r, updates) ==>
      && e.Changed? && e.newValue != e.oldValue
      && exists i :: 0 <= i < |updates| && updates[i] == (e.key, e.newValue)
  {
    if updates != [] {
      var init := updates[..|updates| - 1];
      UpdateNotifiesOnlyChanges(r, init);
      forall e | e in UpdateEvents(r, updates)
        ensures && e.Changed? && e.newValue != e.oldValue
                && exists i :: 0 <= i < |updates| && updates[i] == (e.key, e.newValue)
      {
        if e in UpdateEvents(r, init) {
          var i :| 0 <= i < |init| && init[i] == (e.key, e.newValue);
          assert updates[i] == init[i];
        } else {
          assert updates[|updates| - 1] == (e.key, e.newValue);
        }
      }
    }
  }

  /** Updating every key to the value it already has is silent and changes nothing. */
  lemma {:induction false} UpdateWithCurrentValuesIsSilent(r: Record, updates: seq<(string, Value)>)
    requires forall i :: 0 <= i < |updates| ==> Lookup(r, updates[i].0) == updates[i].1
    ensures UpdateRecord(r, updates) == r
    ensures UpdateEvents(r, updates) == []
  {
    if updates != [] {
      UpdateWithCurrentValuesIsSilent(r, updates[..|updates| - 1]);
    }
  }

  /** `!state[key]`, the value `toggle` stores. */
  function ToggleValue(v: Value): (t: Value)
    ensures t.Bool? && t.b == !Truthy(v)
    ensures t != v
  {
    Bool(!Truthy(v))
  }

  /** Toggling a boolean twice restores it. */
  lemma ToggleTwice(b: bool)
    ensures ToggleValue(ToggleValue(Bool(b))) == Bool(b)
  {
  }

  // ---------------------------------------------------------------- unsubscribe

  /** What the unsubscribe closure does to the listener list: `splice(indexOf(x), 1)` when found. */
  function RemoveFirst(ls: seq<ListenerId>, x: ListenerId): seq<ListenerId> {
    var i := JsArray.IndexOf(ls, x);
    if i > -1 then JsArray.RemoveAt(ls, i) else ls
  }

  /**
   * Unsubscribing removes exactly one occurrence, the first, and nothing else;
   * a listener that is absent leaves the list as it is.
   */
  lemma RemoveFirstRemovesOne(ls: seq<ListenerId>, x: ListenerId)
    ensures x !in ls ==> RemoveFirst(ls, x) == ls
    ensures x in ls ==> exists i :: 0 <= i < |ls| && ls[i] == x && x !in ls[..i] && RemoveFirst(ls, x) == ls[..i] + ls[i + 1..]
    ensures x in ls ==> multiset(RemoveFirst(ls, x)) == multiset(ls) - multiset{x}
  {
    if x in ls {
      var i := JsArray.IndexOf(ls, x);
      assert ls == ls[..i] + [ls[i]] + ls[i + 1..];
      assert RemoveFirst(ls, x) == ls[..i] + ls[i + 1..];
    }
  }

  /** A listener subscribed once: after unsubscribing it is gone, so calling the closure again is a no-op. */
  lemma UnsubscribeTwiceIsNoop(ls: seq<ListenerId>, x: ListenerId)
    requires multiset(ls)[x] <= 1
    ensures x !in RemoveFirst(ls, x)
    ensures RemoveFirst(RemoveFirst(ls, x), x) == RemoveFirst(ls, x)
  {
    RemoveFirstRemovesOne(ls, x);
    if x in ls {
      assert multiset(RemoveFirst(ls, x))[x] == 0;
    }
    RemoveFirstRemovesOne(RemoveFirst(ls, x), x);
  }

  /** Subscribing a new listener and unsubscribing it gives the list back. */
  lemma SubscribeThenUnsubscribe(ls: seq<ListenerId>, x: ListenerId)
    requires x !in ls
    ensures RemoveFirst(ls + [x], x) == ls
  {
    assert JsArray.IndexOf(ls + [x], x) == |ls| by {
      assert (ls + [x])[..|ls|] == ls;
    }
  }

  // ---------------------------------------------------------------- the manager

  /** `StateManager`: the current state object, the subscribers in order, and the deliveries made so far. */
  class StateManager {
    var state: Record
    var listeners: seq<ListenerId>
    var log: seq<Delivery>

    /** `new StateManager(initialState)`: any given object is used as is, otherwise a fresh default state. */
    constructor(initialState: Option<Record>)
      ensures state == (if initialState.Some? then initialState.value else InitialRecord())
      ensures listeners == [] && log == []
    {
      state := if initialState.Some? then initialState.value else InitialRecord();
      listeners := [];
      log := [];
    }

    /** The `state` getter: a copy that reads like the store, key by key. */
    function Snapshot(): (r: Record)
      reads this
      ensures forall key :: Lookup(r, key) == Get(key)
    {
      state
    }

    /** `get(key)`: missing keys read as `undefined`. */
    function Get(key: string): (v: Value)
      reads this
      ensures key !in state ==> v == Undefined
      ensures key in state ==> v == state[key]
    {
      Lookup(state, key)
    }

    /** `_notifyListeners`: one delivery per listener, in subscription order. */
    method NotifyListeners(e: Event)
      modifies this
      ensures log == old(log) + Deliveries(listeners, e)
      ensures state == old(state) && listeners == old(listeners)
    {
      var i := 0;
      while i < |listeners|
        invariant 0 <= i <= |listeners|
        invariant state == old(state) && listeners == old(listeners)
        invariant log == old(log) + Deliveries(listeners[..i], e)
      {
        log := log + [Delivery(listeners[i], e)];
        i := i + 1;
        assert Deliveries(listeners[..i], e) == Deliveries(listeners[..i - 1], e) + [Delivery(listeners[i - 1], e)];
      }
      assert listeners[..i] == listeners;
    }

    /** `set(key, value)`: store and notify only when the value differs (`!==`). */
    method Set(key: string, value: Value)
      modifies this
      ensures state == SetRecord(old(state), key, value)
      ensures log == old(log) + Broadcast(listeners, SetEvents(old(state), key, value))
      ensures listeners == old(listeners)
    {
      var oldValue := Get(key);
      if oldValue != value {
        state := state[key := value];
        NotifyListeners(Changed(key, value, oldValue));
        assert Broadcast(listeners, [Changed(key, value, oldValue)]) == Deliveries(listeners, Changed(key, value, oldValue)) by {
          assert [Changed(key, value, oldValue)][..0] == [];
        }
      }
    }

    /** `update(updates)`: `set` each entry in order. */
    method Update(updates: seq<(string, Value)>)
      modifies this
      ensures state == UpdateRecord(old(state), updates)
      ensures log == old(log) + Broadcast(listeners, UpdateEvents(old(state), updates))
      ensures listeners == old(listeners)
    {
      ghost var r0 := state;
      ghost var log0 := log;
      for i := 0 to |updates|
        invariant state == UpdateRecord(r0, updates[..i])
        invariant log == log0 + Broadcast(listeners, UpdateEvents(r0, updates[..i]))
        invariant listeners == old(listeners)
      {
        UpdateLogStep(log0, listeners, r0, updates, i);
        Set(updates[i].0, updates[i].1);
      }
      assert updates[..|updates|] == updates;
    }

    /** `toggle(key)`: store and return the negation of the current value; this always notifies. */
    method Toggle(key: string) returns (newValue: bool)
      modifies this
      ensures newValue == !Truthy(old(Get(key)))
      ensures state == old(state)[key := Bool(newValue)]
      ensures log == old(log) + Deliveries(listeners, Changed(key, Bool(newValue), old(Get(key))))
      ensures listeners == old(listeners)
    {
      newValue := !Truthy(Get(key));
      ghost var before := Get(key);
      Set(key, Bool(newValue));
      assert ToggleValue(before) == Bool(newValue);
      assert SetEvents(old(state), key, Bool(newValue)) == [Changed(key, Bool(newValue), before)];
      assert [Changed(key, Bool(newValue), before)][..0] == [];
    }

    /** `reset()`: a fresh default state, then one `'*'` notification carrying it. */
    method Reset()
      modifies this
      ensures state == InitialRecord()
      ensures log == old(log) + Deliveries(listeners, ResetAll(InitialRecord()))
      ensures listeners == old(listeners)
    {
      state := InitialRecord();
      NotifyListeners(ResetAll(state));
    }

    /** `subscribe(listener)`: append it to the list. */
    method Subscribe(listener: ListenerId)
      modifies this
      ensures listeners == old(listeners) + [listener]
      ensures state == old(state) && log == old(log)
    {
      listeners := listeners + [listener];
    }

    /** The closure `subscribe` returns: remove the first occurrence of its listener, if any. */
    method Unsubscribe(listener: ListenerId)
      modifies this
      ensures listeners == RemoveFirst(old(listeners), listener)
      ensures state == old(state) && log == old(log)
    {
      var index := JsArray.IndexOf(listeners, listener);
      if index > -1 {
        listeners := listeners[..index] + listeners[index + 1..];
      }
    }
  }
}
