/**
 * The persistence pair of the mixer store (src/store/useMixerStore.ts, the
 * `partialize` and `merge` options): which fields are written to storage, and
 * how a stored blob is merged back onto the freshly created store, migrating
 * renamed channel ids on the way. Storage I/O and JSON are not modelled; a
 * stored blob is given as a value whose objects keep their key order.
 */
module MixerPersistence {
  import opened Wrappers
  import opened MixerTypes

  // ---------------------------------------------------------------------------
  // What is written
  // ---------------------------------------------------------------------------

  /** The persisted subset of the store. */
  datatype PersistedState = PersistedState(
    channels: Channels,
    presets: seq<Preset>,
    currentPresetId: Option<string>,
    isPremium: bool,
    isBinauralActive: bool,
    activeBinauralTrack: string,
    binauralVolume: real)

  /** `partialize`: the allow-listed fields, without the play state, the timer, the paywall or zen flags. */
  function Partialize(s: MixerState): PersistedState {
    PersistedState(s.channels, s.presets, s.currentPresetId, s.isPremium,
                   s.isBinauralActive, s.activeBinauralTrack, s.binauralVolume)
  }

  /** The fields `partialize` leaves out never reach storage. */
  lemma PartializeIgnoresSessionFields(s: MixerState, playing: bool, end: Option<int>,
                                       chosen: Option<int>, paywall: bool, zen: bool)
    ensures Partialize(s.(isPlaying := playing, timerEndTime := end, timerDurationChosen := chosen,
                          isPaywallVisible := paywall, isZenMode := zen))
         == Partialize(s)
  {
  }

  // ---------------------------------------------------------------------------
  // What is read back
  // ---------------------------------------------------------------------------

  /** A stored channel record: any field may be missing in data written by an older version. */
  datatype StoredChannel = StoredChannel(
    volume: Option<real>,
    isMuted: Option<bool>,
    autoVariationEnabled: Option<bool>)

  /** A stored channels object, its keys in `Object.keys` order. */
  type StoredChannels = seq<(string, StoredChannel)>

  datatype StoredPreset = StoredPreset(id: string, name: string, channels: StoredChannels)

  /**
   * The blob handed to `merge` (`Partial<MixerStore>`). `None` is an absent
   * key; `currentPresetId` is `Some(None)` when stored as null.
   */
  datatype StoredState = StoredState(
    channels: Option<StoredChannels>,
    presets: Option<seq<StoredPreset>>,
    currentPresetId: Option<Option<string>>,
    isPremium: Option<bool>,
    isBinauralActive: Option<bool>,
    activeBinauralTrack: Option<string>,
    binauralVolume: Option<real>)

  /** The rename table: `migrations[key] || key`. */
  function Rename(key: string): (r: string)
    ensures key !in {"mer", "riviere", "insectes"} ==> r == key
  {
    if key == "mer" then "plage"
    else if key == "riviere" then "goelands"
    else if key == "insectes" then "cigales"
    else key
  }

  /** Overlay a stored record on a current one, defaulting missing fields to 0.5 / muted / no variation. */
  function Overlay(c: ChannelState, stored: StoredChannel): ChannelState {
    c.(volume := stored.volume.GetOr(0.5),
       isMuted := stored.isMuted.GetOr(true),
       autoVariationEnabled := stored.autoVariationEnabled.GetOr(false))
  }

  /** One turn of merge's `forEach`: the renamed key is merged only if the current channels have it. */
  function MigrateEntry(acc: Channels, entry: (string, StoredChannel)): Channels {
    var newKey := Rename(entry.0);
    if newKey in acc then acc[newKey := Overlay(acc[newKey], entry.1)] else acc
  }

  /**
   * The channels `merge` builds from `base` (the current channels) and a stored
   * channels object: exactly the current key set, each record keeping its id
   * and label.
   */
  function MigrateChannels(entries: StoredChannels, base: Channels): (m: Channels)
    ensures m.Keys == base.Keys
    ensures forall k :: k in m ==> m[k].id == base[k].id && m[k].labelText == base[k].labelText
  {
    if entries == [] then base
    else MigrateEntry(MigrateChannels(entries[..|entries| - 1], base), entries[|entries| - 1])
  }

  /** merge's `forEach` over the stored keys, assigning into a copy of the current channels. */
  method MigrateChannelsLoop(entries: StoredChannels, base: Channels) returns (merged: Channels)
    ensures merged == MigrateChannels(entries, base)
  {
    merged := base;
    var i := 0;
    while i < |entries|
      invariant 0 <= i <= |entries|
      invariant merged == MigrateChannels(entries[..i], base)
    {
      assert entries[..i + 1][..i] == entries[..i];
      var newKey := Rename(entries[i].0);
      if newKey in merged {
        merged := merged[newKey := Overlay(merged[newKey], entries[i].1)];
      }
      i := i + 1;
    }
    assert entries[..i] == entries;
  }

  /** `{...preset, channels: newChannels}` for one stored preset. */
  function MigratePreset(p: StoredPreset, base: Channels): Preset {
    Preset(p.id, p.name, MigrateChannels(p.channels, base))
  }

  function MigratePresets(ps: seq<StoredPreset>, base: Channels): (r: seq<Preset>)
    ensures |r| == |ps|
    ensures forall i :: 0 <= i < |ps| ==> r[i] == MigratePreset(ps[i], base)
  {
    if ps == [] then [] else MigratePresets(ps[..|ps| - 1], base) + [MigratePreset(ps[|ps| - 1], base)]
  }

  /** `merge(persisted, current)`. */
  function MergeState(stored: StoredState, current: MixerState): MixerState {
    current.(
      channels := if stored.channels.Some? then MigrateChannels(stored.channels.value, current.channels)
                  else current.channels,
      presets := if stored.presets.Some? then MigratePresets(stored.presets.value, current.channels)
                 else current.presets,
      currentPresetId := stored.currentPresetId.GetOr(current.currentPresetId),
      isPremium := stored.isPremium.GetOr(false),
      isBinauralActive := stored.isBinauralActive.GetOr(current.isBinauralActive),
      activeBinauralTrack := stored.activeBinauralTrack.GetOr(current.activeBinauralTrack),
      binauralVolume := stored.binauralVolume.GetOr(current.binauralVolume))
  }

  /** `merge`, with the presets' `map` and both `forEach` loops written out. */
  method Merge(stored: StoredState, current: MixerState) returns (merged: MixerState)
    ensures merged == MergeState(stored, current)
  {
    var channels := current.channels;
    if stored.channels.Some? {
      channels := MigrateChannelsLoop(stored.channels.value, current.channels);
    }
    var presets := current.presets;
    if stored.presets.Some? {
      var ps := stored.presets.value;
      presets := [];
      var i := 0;
      while i < |ps|
        invariant 0 <= i <= |ps|
        invariant presets == MigratePresets(ps[..i], current.channels)
      {
        assert ps[..i + 1][..i] == ps[..i];
        var newChannels := MigrateChannelsLoop(ps[i].channels, current.channels);
        presets := presets + [Preset(ps[i].id, ps[i].name, newChannels)];
        i := i + 1;
      }
      assert ps[..i] == ps;
    }
    merged := current.(
      channels := channels,
      presets := presets,
      currentPresetId := stored.currentPresetId.GetOr(current.currentPresetId),
      isPremium := stored.isPremium.GetOr(false),
      isBinauralActive := stored.isBinauralActive.GetOr(current.isBinauralActive),
      activeBinauralTrack := stored.activeBinauralTrack.GetOr(current.activeBinauralTrack),
      binauralVolume := stored.binauralVolume.GetOr(current.binauralVolume));
  }

  // ---------------------------------------------------------------------------
  // Properties of merge
  // ---------------------------------------------------------------------------

  /** Rehydration never touches the session fields: playback does not resume after a restart. */
  lemma MergeKeepsSessionFields(stored: StoredState, current: MixerState)
    ensures var m := MergeState(stored, current);
      && m.isPlaying == current.isPlaying
      && m.timerEndTime == current.timerEndTime
      && m.timerDurationChosen == current.timerDurationChosen
      && m.isPaywallVisible == current.isPaywallVisible
      && m.isZenMode == current.isZenMode
    ensures MergeState(stored, current).isPremium == (stored.isPremium == Some(true))
  {
  }

  /** Every preset comes back with exactly the current channel key set. */
  lemma MergedPresetsHaveCurrentKeys(stored: StoredState, current: MixerState)
    requires stored.presets.Some?
    ensures forall p :: p in MergeState(stored, current).presets ==> p.channels.Keys == current.channels.Keys
  {
    var r := MigratePresets(stored.presets.value, current.channels);
    forall p | p in r ensures p.channels.Keys == current.channels.Keys {
      var i :| 0 <= i < |r| && r[i] == p;
    }
  }

  /** A stored key that renames to nothing in the current channels leaves the result unchanged. */
  lemma {:induction false} UnknownKeysDropped(entries: StoredChannels, base: Channels)
    requires forall i :: 0 <= i < |entries| ==> Rename(entries[i].0) !in base
    ensures MigrateChannels(entries, base) == base
  {
    if entries != [] {
      UnknownKeysDropped(entries[..|entries| - 1], base);
    }
  }

  /**
   * Keys are compared only after renaming: a blob that uses an old id gives the
   * same channels as one that uses its new id with the same values.
   */
  lemma {:induction false} RenamedBlobsMergeAlike(a: StoredChannels, b: StoredChannels, base: Channels)
    requires |a| == |b|
    requires forall i :: 0 <= i < |a| ==> Rename(a[i].0) == Rename(b[i].0) && a[i].1 == b[i].1
    ensures MigrateChannels(a, base) == MigrateChannels(b, base)
  {
    if a != [] {
      RenamedBlobsMergeAlike(a[..|a| - 1], b[..|b| - 1], base);
    }
  }

  /** The stored form of a channel record, as `partialize` and JSON write it. */
  function Stored(c: ChannelState): StoredChannel {
    StoredChannel(Some(c.volume), Some(c.isMuted), Some(c.autoVariationEnabled))
  }

  function KeysOf(entries: StoredChannels): set<string> {
    set i | 0 <= i < |entries| :: entries[i].0
  }

  /** `entries` lists channels of `m`, each at most once, as stored records. */
  ghost predicate Lists(entries: StoredChannels, m: Channels) {
    && (forall i, j :: 0 <= i < j < |entries| ==> entries[i].0 != entries[j].0)
    && (forall i :: 0 <= i < |entries| ==> entries[i].0 in m && entries[i].1 == Stored(m[entries[i].0]))
  }

  /** `entries` lists every channel of `m` once, in some order, as stored records. */
  ghost predicate Enumerates(entries: StoredChannels, m: Channels) {
    KeysOf(entries) == m.Keys && Lists(entries, m)
  }

  /** Dropping the last record of a listing leaves a listing that lacks the dropped key. */
  lemma ListsPrefix(entries: StoredChannels, m: Channels)
    requires entries != [] && Lists(entries, m)
    ensures var init := entries[..|entries| - 1];
            var last := entries[|entries| - 1];
            && Lists(init, m)
            && last.0 in m && last.1 == Stored(m[last.0])
            && KeysOf(entries) == KeysOf(init) + {last.0}
            && last.0 !in KeysOf(init)
  {
    var init := entries[..|entries| - 1];
    var last := entries[|entries| - 1];
    forall i | 0 <= i < |entries| ensures entries[i].0 in KeysOf(init) + {last.0} {
      if i < |entries| - 1 { assert entries[i].0 == init[i].0; }
    }
    forall i | 0 <= i < |init| ensures init[i].0 != last.0 {
      assert init[i].0 == entries[i].0;
    }
  }

  /** No current key is renamed by the rename table. */
  predicate RenameFree(keys: set<string>) {
    forall k :: k in keys ==> Rename(k) == k
  }

  /** No key of `keys` is renamed onto another key of `keys`. */
  predicate NoRenameCollision(keys: set<string>) {
    forall k :: k in keys && Rename(k) != k ==> Rename(k) !in keys
  }

  /** `m` has the key set of `base` and takes its ids and labels from it. */
  ghost predicate Conforms(m: Channels, base: Channels) {
    m.Keys == base.Keys
    && forall k :: k in m ==> m[k].id == base[k].id && m[k].labelText == base[k].labelText
  }

  /**
   * Merging a listing of `m`'s records sets each listed key that the rename
   * table keeps to its record in `m`; every other key keeps its current
   * record (a listed key that is renamed lands on no current key).
   */
  lemma EnumeratedPrefix(entries: StoredChannels, m: Channels, base: Channels)
    requires NoRenameCollision(base.Keys) && Conforms(m, base) && Lists(entries, m)
    ensures forall k :: k in base ==>
      MigrateChannels(entries, base)[k] == if k in KeysOf(entries) && Rename(k) == k then m[k] else base[k]
  {
    forall k | k in base
      ensures MigrateChannels(entries, base)[k] == if k in KeysOf(entries) && Rename(k) == k then m[k] else base[k]
    {
      EnumeratedKey(entries, m, base, k);
    }
  }

  /** EnumeratedPrefix for one current key, by induction on the listing. */
  lemma {:induction false} EnumeratedKey(entries: StoredChannels, m: Channels, base: Channels, k: string)
    requires NoRenameCollision(base.Keys) && Conforms(m, base) && Lists(entries, m) && k in base
    ensures MigrateChannels(entries, base)[k] == if k in KeysOf(entries) && Rename(k) == k then m[k] else base[k]
  {
    if entries != [] {
      var init := entries[..|entries| - 1];
      ListsPrefix(entries, m);
      EnumeratedKey(init, m, base, k);
      MigrateEntryOfListed(MigrateChannels(init, base), entries[|entries| - 1], m, base);
    }
  }

  /** One merge turn over a listed record of `m`: the key takes `m`'s record if the rename table keeps it. */
  lemma MigrateEntryOfListed(acc: Channels, entry: (string, StoredChannel), m: Channels, base: Channels)
    requires NoRenameCollision(base.Keys) && Conforms(m, base) && Conforms(acc, base)
    requires entry.0 in m && entry.1 == Stored(m[entry.0])
    ensures MigrateEntry(acc, entry) == if Rename(entry.0) == entry.0 then acc[entry.0 := m[entry.0]] else acc
  {
    if Rename(entry.0) == entry.0 {
      assert Overlay(acc[entry.0], entry.1) == m[entry.0];
    }
  }

  /** A current key that the rename table renames is never a merge target: it keeps its current record. */
  lemma {:induction false} RenamedAwayKeysKeepBase(entries: StoredChannels, base: Channels, k: string)
    requires k in base && Rename(k) != k
    ensures MigrateChannels(entries, base)[k] == base[k]
  {
    if entries != [] {
      RenamedAwayKeysKeepBase(entries[..|entries| - 1], base, k);
      assert Rename(entries[|entries| - 1].0) != k;
    }
  }

  /**
   * Over a rename-free key set, merging what `partialize` stored restores the
   * stored channels exactly, whatever the key order.
   */
  lemma StoredChannelsRestored(entries: StoredChannels, m: Channels, base: Channels)
    requires RenameFree(base.Keys) && Conforms(m, base) && Enumerates(entries, m)
    ensures MigrateChannels(entries, base) == m
  {
    EnumeratedPrefix(entries, m, base);
  }

  /**
   * Merge is idempotent whenever no current key is renamed onto another one
   * (the shipped key set included): storing its result and merging that
   * again gives the same channels.
   */
  lemma MergeChannelsIdempotent(first: StoredChannels, again: StoredChannels, base: Channels)
    requires NoRenameCollision(base.Keys)
    requires Enumerates(again, MigrateChannels(first, base))
    ensures MigrateChannels(again, base) == MigrateChannels(first, base)
  {
    var m := MigrateChannels(first, base);
    EnumeratedPrefix(again, m, base);
    forall k | k in base && Rename(k) != k ensures m[k] == base[k] {
      RenamedAwayKeysKeepBase(first, base, k);
    }
  }

  /** `blob` is what storage holds after writing `p`. */
  ghost predicate Encodes(blob: StoredState, p: PersistedState) {
    && blob.channels.Some? && Enumerates(blob.channels.value, p.channels)
    && blob.presets.Some? && |blob.presets.value| == |p.presets|
    && (forall i :: 0 <= i < |p.presets| ==>
          blob.presets.value[i].id == p.presets[i].id
          && blob.presets.value[i].name == p.presets[i].name
          && Enumerates(blob.presets.value[i].channels, p.presets[i].channels))
    && blob.currentPresetId == Some(p.currentPresetId)
    && blob.isPremium == Some(p.isPremium)
    && blob.isBinauralActive == Some(p.isBinauralActive)
    && blob.activeBinauralTrack == Some(p.activeBinauralTrack)
    && blob.binauralVolume == Some(p.binauralVolume)
  }

  /**
   * Persist-then-rehydrate round trip: over a rename-free current key set,
   * merging the blob written from `s` restores every persisted field of `s`
   * and keeps the session fields of the freshly created store.
   */
  lemma PersistRoundTrip(s: MixerState, blob: StoredState, current: MixerState)
    requires Encodes(blob, Partialize(s))
    requires RenameFree(current.channels.Keys)
    requires Conforms(s.channels, current.channels)
    requires forall i :: 0 <= i < |s.presets| ==> Conforms(s.presets[i].channels, current.channels)
    ensures Partialize(MergeState(blob, current)) == Partialize(s)
    ensures MergeState(blob, current).isPlaying == current.isPlaying
  {
    StoredChannelsRestored(blob.channels.value, s.channels, current.channels);
    var merged := MigratePresets(blob.presets.value, current.channels);
    forall i | 0 <= i < |s.presets| ensures merged[i] == s.presets[i] {
      StoredChannelsRestored(blob.presets.value[i].channels, s.presets[i].channels, current.channels);
    }
    assert merged == s.presets;
  }
}

/**
 * Merge against the two registries: the store's default channels (still on
 * the pre-rename ids) and the audio registry's ids.
 */
module RegistryMigration {
  import opened Wrappers
  import opened MixerTypes
  import opened MixerPersistence
  import ChannelConstants
  import AudioConfig

  /**
   * As written: the store's default channels still use mer, riviere and
   * insectes, which the rename table maps to ids those channels lack. A store
   * whose mer channel was unmuted at 0.9 comes back from storage with mer
   * muted at 0.5: the setting is lost on every restart.
   */
  lemma ShippedChannelsLoseOldIdSettings()
    ensures !RenameFree(ChannelConstants.InitialIds)
    ensures var base := ChannelConstants.InitialChannels();
            var m := base["mer" := base["mer"].(volume := 0.9, isMuted := false)];
            && Conforms(m, base)
            && Enumerates([("mer", Stored(m["mer"]))], m - (base.Keys - {"mer"}))
            && MigrateChannels([("mer", Stored(m["mer"]))], base)["mer"] == base["mer"]
            && base["mer"] != m["mer"]
  {
    assert Rename("mer") == "plage" && "plage" !in ChannelConstants.InitialIds;
    var base := ChannelConstants.InitialChannels();
    var m := base["mer" := base["mer"].(volume := 0.9, isMuted := false)];
    var es := [("mer", Stored(m["mer"]))];
    assert KeysOf(es) == {"mer"} by {
      assert es[0].0 == "mer";
    }
    assert (m - (base.Keys - {"mer"})).Keys == {"mer"};
  }

  /** The shipped key set has renamed keys, but none is renamed onto another shipped key. */
  lemma ShippedKeysRenameSafe()
    ensures NoRenameCollision(ChannelConstants.InitialIds)
  {
    forall k | k in ChannelConstants.InitialIds && Rename(k) != k
      ensures Rename(k) !in ChannelConstants.InitialIds
    {
      assert k in {"mer", "riviere", "insectes"};
    }
  }

  /** On the shipped default channels, merging a stored merge result again changes nothing. */
  lemma ShippedMergeIdempotent(first: StoredChannels, again: StoredChannels)
    requires Enumerates(again, MigrateChannels(first, ChannelConstants.InitialChannels()))
    ensures MigrateChannels(again, ChannelConstants.InitialChannels())
         == MigrateChannels(first, ChannelConstants.InitialChannels())
  {
    ShippedKeysRenameSafe();
    MergeChannelsIdempotent(first, again, ChannelConstants.InitialChannels());
  }

  /** The audio registry's key set is rename-free. */
  lemma AudioIdsRenameFree()
    ensures RenameFree(AudioConfig.ChannelIds)
  {
    forall k | k in AudioConfig.ChannelIds ensures Rename(k) == k {
      AudioConfig.RenameTargetsAreRegistryIds();
    }
  }

  /**
   * Corrected: with the current channels keyed by the audio registry's ids,
   * a stored snapshot comes back exactly, and a stored old id carries its
   * values to the new id.
   */
  lemma AudioKeyedChannelsRestoreSettings(entries: StoredChannels, m: Channels, base: Channels,
                                          oldId: string, c: StoredChannel)
    requires base.Keys == AudioConfig.ChannelIds
    requires Conforms(m, base) && Enumerates(entries, m)
    requires oldId in {"mer", "riviere", "insectes"}
    ensures MigrateChannels(entries, base) == m
    ensures Rename(oldId) in base
    ensures MigrateChannels([(oldId, c)], base)[Rename(oldId)] == Overlay(base[Rename(oldId)], c)
  {
    AudioIdsRenameFree();
    StoredChannelsRestored(entries, m, base);
    AudioConfig.RenameTargetsAreRegistryIds();
    assert [(oldId, c)][..0] == [];
  }
}
