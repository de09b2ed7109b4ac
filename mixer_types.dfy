/**
 * The mixer's records (src/types/mixer.ts, extended with the binaural and zen
 * fields the store actually holds).
 */
module MixerTypes {
  import opened Wrappers

  /**
   * One ambient channel. `id` and `labelText` (the source's `label`) are optional because a record built
   * by spreading a missing registry entry (`{...undefined, volume, ...}`) has
   * neither.
   */
  datatype ChannelState = ChannelState(
    id: Option<string>,
    labelText: Option<string>,
    volume: real,
    isMuted: bool,
    autoVariationEnabled: bool)

  /** `Record<ChannelId, ChannelState>`. */
  type Channels = map<string, ChannelState>

  datatype Preset = Preset(id: string, name: string, channels: Channels)

  /** The store's data fields (the actions are the methods of MixerStore.Store). */
  datatype MixerState = MixerState(
    isPlaying: bool,
    timerEndTime: Option<int>,          // absolute time in milliseconds
    timerDurationChosen: Option<int>,   // minutes
    currentPresetId: Option<string>,
    isPremium: bool,
    isPaywallVisible: bool,
    isZenMode: bool,
    isBinauralActive: bool,
    activeBinauralTrack: string,
    binauralVolume: real,
    channels: Channels,
    presets: seq<Preset>)

  /** A volume is a level in [0, 1]. */
  predicate IsLevel(v: real) {
    0.0 <= v <= 1.0
  }
}
