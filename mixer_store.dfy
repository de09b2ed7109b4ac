/**
 * The mixer store (src/store/useMixerStore.ts): one mutable aggregate whose
 * actions replace fields synchronously. Each action is a pure transition on
 * MixerState, and the Store class's method of the same action is proved to
 * perform exactly that transition on its fields. The clock (`Date.now`) and
 * the random numbers (`Math.random`, the shuffle) are parameters.
 */
module MixerStore {
  import opened Wrappers
  import opened Text
  import opened MixerTypes
  import opened MixerPersistence
  import ChannelConstants

  // ---------------------------------------------------------------------------
  // Preset lookup
  // ---------------------------------------------------------------------------

  /** `presets.findIndex(p => p.id === id)`: the first preset carrying `id`, or -1. */
  function FindPresetIndex(presets: seq<Preset>, id: string): (i: int)
    ensures -1 <= i < |presets|
    ensures i >= 0 ==> presets[i].id == id && forall j :: 0 <= j < i ==> presets[j].id != id
    ensures i == -1 <==> forall j :: 0 <= j < |presets| ==> presets[j].id != id
  {
    if presets == [] then -1
    else if presets[0].id == id then 0
    else
      var rest := FindPresetIndex(presets[1..], id);
      if rest == -1 then -1 else rest + 1
  }

  /** `presets.filter(p => p.id !== id)`. */
  function WithoutPreset(presets: seq<Preset>, id: string): (r: seq<Preset>)
    ensures |r| <= |presets|
    ensures forall p :: p in r <==> p in presets && p.id != id
  {
    if presets == [] then []
    else if presets[0].id == id then WithoutPreset(presets[1..], id)
    else [presets[0]] + WithoutPreset(presets[1..], id)
  }

  /** Filtering keeps the order: it distributes over concatenation. */
  lemma {:induction false} WithoutPresetKeepsOrder(a: seq<Preset>, b: seq<Preset>, id: string)
    ensures WithoutPreset(a + b, id) == WithoutPreset(a, id) + WithoutPreset(b, id)
  {
    if a != [] {
      assert (a + b)[0] == a[0];
      assert (a + b)[1..] == a[1..] + b;
      WithoutPresetKeepsOrder(a[1..], b, id);
      if a[0].id != id {
        assert [a[0]] + (WithoutPreset(a[1..], id) + WithoutPreset(b, id))
            == ([a[0]] + WithoutPreset(a[1..], id)) + WithoutPreset(b, id);
      }
    } else {
      assert a + b == b;
    }
  }

  /** Filtering a list that does not hold `id` changes nothing; so filtering twice is filtering once. */
  lemma {:induction false} WithoutAbsentPreset(presets: seq<Preset>, id: string)
    requires forall j :: 0 <= j < |presets| ==> presets[j].id != id
    ensures WithoutPreset(presets, id) == presets
  {
    if presets != [] {
      WithoutAbsentPreset(presets[1..], id);
    }
  }

  // ---------------------------------------------------------------------------
  // Actions as transitions
  // ---------------------------------------------------------------------------

  /** The store's initial value over a channel registry and its built-in presets. */
  function InitialState(registry: Channels, defaults: seq<Preset>): MixerState {
    MixerState(false, None, None, None, false, false, false, false, "delta", 0.5, registry, defaults)
  }

  function PlayPauseToggled(s: MixerState): MixerState {
    s.(isPlaying := !s.isPlaying, isZenMode := false)
  }

  /** A chosen duration is truthy unless it is null or 0. */
  predicate IsTruthy(minutes: Option<int>) {
    minutes.Some? && minutes.value != 0
  }

  function TimerSet(s: MixerState, minutes: Option<int>, now: int): MixerState {
    s.(timerDurationChosen := minutes,
       timerEndTime := if IsTruthy(minutes) then Some(now + minutes.value * 60 * 1000) else None)
  }

  function ChannelVolumeSet(s: MixerState, id: string, v: real): MixerState
    requires id in s.channels
  {
    s.(channels := s.channels[id := s.channels[id].(volume := v)], currentPresetId := None)
  }

  function AutoChannelVolumeSet(s: MixerState, id: string, v: real): MixerState
    requires id in s.channels
  {
    s.(channels := s.channels[id := s.channels[id].(volume := v)])
  }

  function ChannelMuteToggled(s: MixerState, id: string): MixerState
    requires id in s.channels
  {
    s.(channels := s.channels[id := s.channels[id].(isMuted := !s.channels[id].isMuted)],
       currentPresetId := None)
  }

  function ChannelAutoVariationToggled(s: MixerState, id: string): MixerState
    requires id in s.channels
  {
    var c := s.channels[id];
    s.(channels := s.channels[id := c.(autoVariationEnabled := !c.autoVariationEnabled)],
       currentPresetId := None)
  }

  function PresetLoaded(s: MixerState, id: string): MixerState {
    var i := FindPresetIndex(s.presets, id);
    if i == -1 then s else s.(channels := s.presets[i].channels, currentPresetId := Some(id))
  }

  /** The id `saveUserPreset` generates at time `now`. */
  function UserPresetId(now: nat): string {
    ChannelConstants.UserPresetPrefix + NatToString(now)
  }

  function UserPresetSaved(s: MixerState, name: string, now: nat): MixerState {
    var p := Preset(UserPresetId(now), name, s.channels);
    s.(presets := s.presets + [p], currentPresetId := Some(p.id))
  }

  function UserPresetDeleted(s: MixerState, id: string): MixerState {
    s.(presets := WithoutPreset(s.presets, id),
       currentPresetId := if s.currentPresetId == Some(id) then None else s.currentPresetId)
  }

  // ---------------------------------------------------------------------------
  // randomizeMix
  // ---------------------------------------------------------------------------

  /** The channels a non-premium user may randomize. */
  const FreeChannels: seq<string> := ["oiseaux", "vent", "plage"]

  /** The ids `randomizeMix` draws from: every registry id when premium, else the free list. */
  function EntitledIds(isPremium: bool, registry: Channels): set<string> {
    if isPremium then registry.Keys else {"oiseaux", "vent", "plage"}
  }

  predicate Distinct(xs: seq<string>) {
    forall i, j :: 0 <= i < j < |xs| ==> xs[i] != xs[j]
  }

  /** `Math.floor(r * (max - min + 1)) + min` with max = min(4, n) and min = min(2, n). */
  function ActiveCount(n: nat, r: real): (k: nat)
    requires 0.0 <= r < 1.0
    ensures (if n < 2 then n else 2) <= k <= (if n < 4 then n else 4)
  {
    var hi := if n < 4 then n else 4;
    var lo := if n < 2 then n else 2;
    var span := (hi - lo + 1) as real;
    assert 0.0 <= r * span < span by {
      assert r * span <= r * span + (1.0 - r) * span;
    }
    (r * span).Floor + lo
  }

  /** The record randomizeMix writes for `id` from a (volume, variation) roll pair. */
  function Activated(registry: Channels, id: string, roll: (real, real)): ChannelState {
    var base := if id in registry then registry[id] else ChannelState(None, None, 0.0, true, false);
    base.(isMuted := false, volume := 0.3 + roll.0 * 0.5, autoVariationEnabled := roll.1 > 0.5)
  }

  /** `newChannels` after the `forEach` over `selected`, starting from the registry. */
  function ActivateAll(registry: Channels, selected: seq<string>, rolls: seq<(real, real)>): (m: Channels)
    requires |rolls| >= |selected|
    ensures m.Keys == registry.Keys + (set x | x in selected)
  {
    if selected == [] then registry
    else
      var n := |selected| - 1;
      assert selected == selected[..n] + [selected[n]];
      ActivateAll(registry, selected[..n], rolls)[selected[n] := Activated(registry, selected[n], rolls[n])]
  }

  /** The `forEach` that writes the selected channels into a copy of the registry. */
  method ActivateSelected(registry: Channels, selected: seq<string>, rolls: seq<(real, real)>)
    returns (newChannels: Channels)
    requires |rolls| >= |selected|
    ensures newChannels == ActivateAll(registry, selected, rolls)
  {
    newChannels := registry;
    var i := 0;
    while i < |selected|
      invariant 0 <= i <= |selected|
      invariant newChannels == ActivateAll(registry, selected[..i], rolls)
    {
      assert selected[..i + 1][..i] == selected[..i];
      newChannels := newChannels[selected[i] := Activated(registry, selected[i], rolls[i])];
      i := i + 1;
    }
    assert selected[..i] == selected;
  }

  /** What randomizeMix's random inputs must be: a roll, a shuffle of the entitled ids and enough roll pairs. */
  ghost predicate RandomInputs(isPremium: bool, registry: Channels, r: real, order: seq<string>,
                         rolls: seq<(real, real)>)
  {
    && 0.0 <= r < 1.0
    && Distinct(order)
    && (forall x :: x in order <==> x in EntitledIds(isPremium, registry))
    && |rolls| >= |order|
    && (forall i :: 0 <= i < |rolls| ==> 0.0 <= rolls[i].0 < 1.0 && 0.0 <= rolls[i].1 < 1.0)
  }

  function MixRandomized(s: MixerState, registry: Channels, r: real, order: seq<string>,
                         rolls: seq<(real, real)>): MixerState
    requires 0.0 <= r < 1.0 && |rolls| >= |order|
  {
    var selected := order[..ActiveCount(|order|, r)];
    s.(channels := ActivateAll(registry, selected, rolls),
       currentPresetId := None, isPlaying := true, isZenMode := true)
  }

  // ---------------------------------------------------------------------------
  // The store
  // ---------------------------------------------------------------------------

  class Store {
    /** INITIAL_CHANNELS, the registry randomizeMix starts from. */
    const registry: Channels

    var isPlaying: bool
    var timerEndTime: Option<int>
    var timerDurationChosen: Option<int>
    var currentPresetId: Option<string>
    var isPremium: bool
    var isPaywallVisible: bool
    var isZenMode: bool
    var isBinauralActive: bool
    var activeBinauralTrack: string
    var binauralVolume: real
    var channels: Channels
    var presets: seq<Preset>

    /** The store's current value. */
    function Snapshot(): MixerState
      reads this
    {
      MixerState(isPlaying, timerEndTime, timerDurationChosen, currentPresetId, isPremium,
                 isPaywallVisible, isZenMode, isBinauralActive, activeBinauralTrack,
                 binauralVolume, channels, presets)
    }

    method Assign(s: MixerState)
      modifies this
      ensures Snapshot() == s
    {
      isPlaying, timerEndTime, timerDurationChosen := s.isPlaying, s.timerEndTime, s.timerDurationChosen;
      currentPresetId, isPremium, isPaywallVisible := s.currentPresetId, s.isPremium, s.isPaywallVisible;
      isZenMode, isBinauralActive := s.isZenMode, s.isBinauralActive;
      activeBinauralTrack, binauralVolume := s.activeBinauralTrack, s.binauralVolume;
      channels, presets := s.channels, s.presets;
    }

    constructor (initialChannels: Channels, defaultPresets: seq<Preset>)
      ensures registry == initialChannels
      ensures Snapshot() == InitialState(initialChannels, defaultPresets)
    {
      registry := initialChannels;
      isPlaying, timerEndTime, timerDurationChosen, currentPresetId := false, None, None, None;
      isPremium, isPaywallVisible, isZenMode := false, false, false;
      isBinauralActive, activeBinauralTrack, binauralVolume := false, "delta", 0.5;
      channels, presets := initialChannels, defaultPresets;
    }

    method TogglePlayPause()
      modifies this
      ensures Snapshot() == PlayPauseToggled(old(Snapshot()))
    {
      isPlaying := !isPlaying;
      isZenMode := false;
    }

    method SetIsPremium(value: bool)
      modifies this
      ensures Snapshot() == old(Snapshot()).(isPremium := value)
    {
      isPremium := value;
    }

    method SetPaywallVisible(value: bool)
      modifies this
      ensures Snapshot() == old(Snapshot()).(isPaywallVisible := value)
    {
      isPaywallVisible := value;
    }

    method SetIsZenMode(value: bool)
      modifies this
      ensures Snapshot() == old(Snapshot()).(isZenMode := value)
    {
      isZenMode := value;
    }

    method ToggleBinaural()
      modifies this
      ensures Snapshot() == old(Snapshot()).(isBinauralActive := !old(isBinauralActive))
    {
      isBinauralActive := !isBinauralActive;
    }

    method SetBinauralTrack(id: string)
      modifies this
      ensures Snapshot() == old(Snapshot()).(activeBinauralTrack := id)
    {
      activeBinauralTrack := id;
    }

    method SetBinauralVolume(volume: real)
      modifies this
      ensures Snapshot() == old(Snapshot()).(binauralVolume := volume)
    {
      binauralVolume := volume;
    }

    /** `setTimer(minutes)` at wall-clock time `now` (milliseconds). */
    method SetTimer(minutes: Option<int>, now: int)
      modifies this
      ensures Snapshot() == TimerSet(old(Snapshot()), minutes, now)
    {
      timerDurationChosen := minutes;
      timerEndTime := if IsTruthy(minutes) then Some(now + minutes.value * 60 * 1000) else None;
    }

    /**
     * `randomizeMix` with its random inputs: `r` picks how many channels, `order`
     * is the shuffled entitled list and `rolls` the volume and variation draws.
     */
    method RandomizeMix(r: real, order: seq<string>, rolls: seq<(real, real)>)
      requires RandomInputs(isPremium, registry, r, order, rolls)
      modifies this
      ensures Snapshot() == MixRandomized(old(Snapshot()), registry, r, order, rolls)
    {
      var numActive := ActiveCount(|order|, r);
      var selected := order[..numActive];
      var newChannels := ActivateSelected(registry, selected, rolls);
      channels := newChannels;
      currentPresetId := None;
      isPlaying := true;
      isZenMode := true;
    }

    method SetChannelVolume(id: string, volume: real)
      requires id in channels && IsLevel(volume)
      modifies this
      ensures Snapshot() == ChannelVolumeSet(old(Snapshot()), id, volume)
    {
      channels := channels[id := channels[id].(volume := volume)];
      currentPresetId := None;
    }

    /** The auto-variation write path: same update, but the current preset is kept. */
    method SetAutoChannelVolume(id: string, volume: real)
      requires id in channels
      modifies this
      ensures Snapshot() == AutoChannelVolumeSet(old(Snapshot()), id, volume)
    {
      channels := channels[id := channels[id].(volume := volume)];
    }

    method ToggleChannelMute(id: string)
      requires id in channels
      modifies this
      ensures Snapshot() == ChannelMuteToggled(old(Snapshot()), id)
    {
      channels := channels[id := channels[id].(isMuted := !channels[id].isMuted)];
      currentPresetId := None;
    }

    method ToggleChannelAutoVariation(id: string)
      requires id in channels
      modifies this
      ensures Snapshot() == ChannelAutoVariationToggled(old(Snapshot()), id)
    {
      channels := channels[id := channels[id].(autoVariationEnabled := !channels[id].autoVariationEnabled)];
      currentPresetId := None;
    }

    method LoadPreset(id: string)
      modifies this
      ensures Snapshot() == PresetLoaded(old(Snapshot()), id)
    {
      var i := FindPresetIndex(presets, id);
      if i != -1 {
        channels := presets[i].channels;
        currentPresetId := Some(id);
      }
    }

    /** `saveUserPreset(name)` at wall-clock time `now`. */
    method SaveUserPreset(name: string, now: nat)
      modifies this
      ensures Snapshot() == UserPresetSaved(old(Snapshot()), name, now)
    {
      var p := Preset(UserPresetId(now), name, channels);
      presets := presets + [p];
      currentPresetId := Some(p.id);
    }

    method DeleteUserPreset(id: string)
      modifies this
      ensures Snapshot() == UserPresetDeleted(old(Snapshot()), id)
    {
      presets := WithoutPreset(presets, id);
      if currentPresetId == Some(id) {
        currentPresetId := None;
      }
    }

    /** Rehydration from storage: `merge(stored, currentState)` replaces the store's value. */
    method Rehydrate(stored: StoredState)
      modifies this
      ensures Snapshot() == MergeState(stored, old(Snapshot()))
    {
      var merged := Merge(stored, Snapshot());
      Assign(merged);
    }
  }

  // ---------------------------------------------------------------------------
  // Properties of the actions
  // ---------------------------------------------------------------------------

  /** Toggling twice restores the play flag; the controls are shown either way. */
  lemma PlayPauseTwice(s: MixerState)
    ensures PlayPauseToggled(PlayPauseToggled(s)) == s.(isZenMode := false)
  {
  }

  /** A non-zero duration ends `minutes` minutes after `now`; null or 0 clears the end time. */
  lemma TimerEndTime(s: MixerState, minutes: Option<int>, now: int)
    ensures TimerSet(s, minutes, now).timerDurationChosen == minutes
    ensures TimerSet(s, minutes, now).timerEndTime.Some? <==> minutes.Some? && minutes.value != 0
    ensures minutes.Some? && minutes.value != 0 ==> TimerSet(s, minutes, now).timerEndTime.value == now + minutes.value * 60000
    ensures minutes.Some? && minutes.value > 0 ==> TimerSet(s, minutes, now).timerEndTime.value > now
    ensures TimerSet(s, minutes, now).(timerDurationChosen := s.timerDurationChosen, timerEndTime := s.timerEndTime) == s
  {
  }

  /**
   * Each manual channel edit changes one field of the named channel only and
   * detaches the live mix from its preset; the auto-variation write changes the
   * same field but keeps the preset.
   */
  lemma ChannelEditsTouchOneChannel(s: MixerState, id: string, v: real, k: string)
    requires id in s.channels && k in s.channels && k != id
    ensures ChannelVolumeSet(s, id, v).channels[k] == s.channels[k]
    ensures ChannelMuteToggled(s, id).channels[k] == s.channels[k]
    ensures ChannelAutoVariationToggled(s, id).channels[k] == s.channels[k]
    ensures AutoChannelVolumeSet(s, id, v).channels[k] == s.channels[k]
    ensures ChannelVolumeSet(s, id, v).channels.Keys == s.channels.Keys
    ensures ChannelVolumeSet(s, id, v).currentPresetId.None?
    ensures ChannelMuteToggled(s, id).currentPresetId.None?
    ensures ChannelAutoVariationToggled(s, id).currentPresetId.None?
    ensures AutoChannelVolumeSet(s, id, v).currentPresetId == s.currentPresetId
    ensures ChannelMuteToggled(s, id).channels[id].isMuted == !s.channels[id].isMuted
    ensures ChannelAutoVariationToggled(s, id).channels[id].autoVariationEnabled
         == !s.channels[id].autoVariationEnabled
  {
  }

  /** Loading an unknown id changes nothing. */
  lemma LoadUnknownPresetIsNoop(s: MixerState, id: string)
    requires forall p :: p in s.presets ==> p.id != id
    ensures PresetLoaded(s, id) == s
  {
  }

  /**
   * Saving appends exactly one preset holding the current channels and makes
   * it current; loading it back (its id being fresh) restores those channels.
   */
  lemma SaveThenLoadRestores(s: MixerState, name: string, now: nat, later: MixerState)
    requires forall p :: p in s.presets ==> p.id != UserPresetId(now)
    requires later.presets == UserPresetSaved(s, name, now).presets
    ensures |UserPresetSaved(s, name, now).presets| == |s.presets| + 1
    ensures UserPresetSaved(s, name, now).presets[..|s.presets|] == s.presets
    ensures UserPresetSaved(s, name, now).currentPresetId == Some(UserPresetId(now))
    ensures PresetLoaded(later, UserPresetId(now)).channels == s.channels
    ensures PresetLoaded(later, UserPresetId(now)).currentPresetId == Some(UserPresetId(now))
  {
    var ps := later.presets;
    assert ps[|s.presets|].id == UserPresetId(now);
    assert forall j :: 0 <= j < |s.presets| ==> ps[j] == s.presets[j] && ps[j] in s.presets;
  }

  /** Presets saved at different times get different ids. */
  lemma UserPresetIdsDiffer(t1: nat, t2: nat)
    requires t1 != t2
    ensures UserPresetId(t1) != UserPresetId(t2)
  {
    var p := ChannelConstants.UserPresetPrefix;
    if UserPresetId(t1) == UserPresetId(t2) {
      assert NatToString(t1) == UserPresetId(t1)[|p|..];
      NatToStringInjective(t1, t2);
    }
  }

  /**
   * Deleting removes every preset with the id and keeps the others in order;
   * the current preset is cleared only if it was the deleted one; deleting
   * twice is deleting once.
   */
  lemma DeletePreset(s: MixerState, id: string)
    ensures forall p :: p in UserPresetDeleted(s, id).presets <==> p in s.presets && p.id != id
    ensures UserPresetDeleted(s, id).currentPresetId
         == if s.currentPresetId == Some(id) then None else s.currentPresetId
    ensures UserPresetDeleted(UserPresetDeleted(s, id), id) == UserPresetDeleted(s, id)
    ensures UserPresetDeleted(s, id).channels == s.channels
  {
    var once := UserPresetDeleted(s, id);
    assert forall j :: 0 <= j < |once.presets| ==> once.presets[j] in once.presets;
    WithoutAbsentPreset(once.presets, id);
  }

  /** The `i`-th selected id ends up with the record its own roll pair gives, whatever comes after it. */
  lemma {:induction false} ActivateAllSelected(registry: Channels, selected: seq<string>, rolls: seq<(real, real)>,
                                               i: nat)
    requires |rolls| >= |selected| && Distinct(selected) && i < |selected|
    ensures ActivateAll(registry, selected, rolls)[selected[i]] == Activated(registry, selected[i], rolls[i])
  {
    var n := |selected| - 1;
    if i < n {
      var init := selected[..n];
      assert Distinct(init);
      assert init[i] == selected[i] && selected[i] != selected[n];
      ActivateAllSelected(registry, init, rolls, i);
    }
  }

  /** A registry channel that is not selected keeps its default record. */
  lemma {:induction false} ActivateAllOther(registry: Channels, selected: seq<string>, rolls: seq<(real, real)>,
                                            k: string)
    requires |rolls| >= |selected| && k in registry && k !in selected
    ensures ActivateAll(registry, selected, rolls)[k] == registry[k]
  {
    if selected != [] {
      var n := |selected| - 1;
      var init := selected[..n];
      assert k !in init && k != selected[n];
      ActivateAllOther(registry, init, rolls, k);
    }
  }

  /** A roll pair in [0, 1) gives an unmuted record at a volume in [0.3, 0.8). */
  lemma ActivatedBounds(registry: Channels, id: string, roll: (real, real))
    requires 0.0 <= roll.0 < 1.0
    ensures !Activated(registry, id, roll).isMuted
    ensures 0.3 <= Activated(registry, id, roll).volume < 0.8
  {
    assert 0.0 <= roll.0 * 0.5 < 0.5;
  }

  /** Over distinct ids, every selected channel is activated and every other one keeps its default. */
  lemma ActivateAllShape(registry: Channels, selected: seq<string>, rolls: seq<(real, real)>)
    requires |rolls| >= |selected| && Distinct(selected)
    requires forall i :: 0 <= i < |rolls| ==> 0.0 <= rolls[i].0 < 1.0
    ensures forall i :: 0 <= i < |selected| ==>
              !ActivateAll(registry, selected, rolls)[selected[i]].isMuted
              && 0.3 <= ActivateAll(registry, selected, rolls)[selected[i]].volume < 0.8
    ensures forall id :: id in registry && id !in selected ==>
              ActivateAll(registry, selected, rolls)[id] == registry[id]
  {
    var m := ActivateAll(registry, selected, rolls);
    forall i | 0 <= i < |selected|
      ensures !m[selected[i]].isMuted && 0.3 <= m[selected[i]].volume < 0.8
    {
      ActivateAllSelected(registry, selected, rolls, i);
      ActivatedBounds(registry, selected[i], rolls[i]);
    }
    forall id | id in registry && id !in selected ensures m[id] == registry[id] {
      ActivateAllOther(registry, selected, rolls, id);
    }
  }

  /**
   * randomizeMix unmutes between min(2, n) and min(4, n) distinct entitled ids
   * at a volume in [0.3, 0.8), leaves every other registry channel at its
   * default, starts playback in zen mode and detaches from any preset.
   */
  lemma RandomizeMixShape(s: MixerState, registry: Channels, r: real, order: seq<string>,
                          rolls: seq<(real, real)>)
    requires RandomInputs(s.isPremium, registry, r, order, rolls)
    ensures var m := MixRandomized(s, registry, r, order, rolls);
            var k := ActiveCount(|order|, r);
            && (if |order| < 2 then |order| else 2) <= k <= (if |order| < 4 then |order| else 4)
            && (forall i :: 0 <= i < k ==>
                  order[i] in EntitledIds(s.isPremium, registry)
                  && !m.channels[order[i]].isMuted
                  && 0.3 <= m.channels[order[i]].volume < 0.8)
            && (forall id :: id in registry && id !in order[..k] ==> m.channels[id] == registry[id])
            && m.isPlaying && m.isZenMode && m.currentPresetId.None?
  {
    var k := ActiveCount(|order|, r);
    var selected := order[..k];
    assert Distinct(selected);
    ActivateAllShape(registry, selected, rolls);
    assert forall i :: 0 <= i < k ==> order[i] == selected[i] && order[i] in order;
  }

  /** Every channel volume in a state is a level. */
  ghost predicate ChannelLevels(m: Channels) {
    forall k :: k in m ==> IsLevel(m[k].volume)
  }

  ghost predicate Levels(s: MixerState) {
    ChannelLevels(s.channels) && forall i :: 0 <= i < |s.presets| ==> ChannelLevels(s.presets[i].channels)
  }

  /**
   * The channel actions keep every stored volume in [0, 1]: the manual setter
   * is given levels, the auto-variation writer is given levels by its ramp.
   */
  lemma ChannelActionsKeepLevels(s: MixerState, id: string, v: real)
    requires Levels(s) && id in s.channels && IsLevel(v)
    ensures Levels(ChannelVolumeSet(s, id, v)) && Levels(AutoChannelVolumeSet(s, id, v))
    ensures Levels(ChannelMuteToggled(s, id)) && Levels(ChannelAutoVariationToggled(s, id))
  {
    var c := s.channels[id];
    UpdateKeepsLevels(s.channels, id, c.(volume := v));
    UpdateKeepsLevels(s.channels, id, c.(isMuted := !c.isMuted));
    UpdateKeepsLevels(s.channels, id, c.(autoVariationEnabled := !c.autoVariationEnabled));
  }

  /** Loading a preset copies in channels that are levels, because presets hold levels. */
  lemma PresetLoadKeepsLevels(s: MixerState, presetId: string)
    requires Levels(s)
    ensures Levels(PresetLoaded(s, presetId))
  {
  }

  /** Writing one record whose volume is a level keeps every volume a level. */
  lemma UpdateKeepsLevels(m: Channels, id: string, c: ChannelState)
    requires ChannelLevels(m) && IsLevel(c.volume)
    ensures ChannelLevels(m[id := c])
  {
    var updated := m[id := c];
    forall k | k in updated ensures IsLevel(updated[k].volume) {
      if k != id {
        assert updated[k] == m[k];
      }
    }
  }

  /** Saving and deleting presets keep every stored volume in [0, 1]. */
  lemma PresetActionsKeepLevels(s: MixerState, name: string, now: nat, presetId: string)
    requires Levels(s)
    ensures Levels(UserPresetSaved(s, name, now)) && Levels(UserPresetDeleted(s, presetId))
  {
    var saved := UserPresetSaved(s, name, now);
    forall i | 0 <= i < |saved.presets| ensures ChannelLevels(saved.presets[i].channels) {
      if i < |s.presets| { assert saved.presets[i] == s.presets[i]; }
    }
    var deleted := UserPresetDeleted(s, presetId);
    forall i | 0 <= i < |deleted.presets| ensures ChannelLevels(deleted.presets[i].channels) {
      assert deleted.presets[i] in deleted.presets;
      var j :| 0 <= j < |s.presets| && s.presets[j] == deleted.presets[i];
    }
  }

  /** randomizeMix over a registry of levels leaves every channel volume a level. */
  lemma RandomizeMixKeepsLevels(s: MixerState, registry: Channels, r: real, order: seq<string>,
                                rolls: seq<(real, real)>)
    requires ChannelLevels(registry) && RandomInputs(s.isPremium, registry, r, order, rolls)
    ensures ChannelLevels(MixRandomized(s, registry, r, order, rolls).channels)
  {
    var k := ActiveCount(|order|, r);
    var selected := order[..k];
    assert Distinct(selected);
    ActivateAllShape(registry, selected, rolls);
    var m := ActivateAll(registry, selected, rolls);
    forall key | key in m ensures IsLevel(m[key].volume) {
      if key in selected {
        var i :| 0 <= i < |selected| && selected[i] == key;
      }
    }
  }
}
