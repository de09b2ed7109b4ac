/** The store's default channel set and the two built-in presets (src/constants/channels.ts). */
module ChannelConstants {
  import opened Wrappers
  import opened MixerTypes

  /** The store's channel ids: the pre-rename ids mer, riviere and insectes are still here. */
  const InitialIds: set<string> :=
    {"oiseaux", "vent", "mer", "riviere", "foret", "pluie", "tonnerre", "insectes", "ville"}

  const CalmPresetId: string := "preset_default_calm"
  const StormPresetId: string := "preset_default_storm"

  /** Prefix of the ids `saveUserPreset` generates. */
  const UserPresetPrefix: string := "preset_user_"

  function Muted(id: string, labelText: string): ChannelState {
    ChannelState(Some(id), Some(labelText), 0.5, true, false)
  }

  /** The label INITIAL_CHANNELS gives each default channel. */
  function Label(id: string): string {
    match id
    case "oiseaux" => "Oiseaux"
    case "vent" => "Vent"
    case "mer" => "Mer"
    case "riviere" => "Rivière"
    case "foret" => "Forêt"
    case "pluie" => "Pluie"
    case "tonnerre" => "Tonnerre"
    case "insectes" => "Insectes"
    case "ville" => "Ville"
    case _ => ""
  }

  /** INITIAL_CHANNELS: every channel muted at half volume, without auto-variation, keyed by its own id. */
  function InitialChannels(): (m: Channels)
    ensures m.Keys == InitialIds
    ensures forall k :: k in m ==> m[k].id == Some(k)
    ensures forall k :: k in m ==> m[k].volume == 0.5 && m[k].isMuted && !m[k].autoVariationEnabled
  {
    map id | id in InitialIds :: Muted(id, Label(id))
  }

  /** `m` equals `base` except possibly on the keys in `changed`. */
  ghost predicate DiffersOnlyIn(m: Channels, base: Channels, changed: set<string>) {
    m.Keys == base.Keys && forall k :: k in base && k !in changed ==> m[k] == base[k]
  }

  /** "Calme en forêt": foret 0.6, oiseaux 0.4 and vent 0.3 with auto-variation, all three unmuted. */
  function CalmPreset(): (p: Preset)
    ensures p.id == CalmPresetId && p.channels.Keys == InitialIds
    ensures DiffersOnlyIn(p.channels, InitialChannels(), {"foret", "oiseaux", "vent"})
    ensures p.channels["foret"] == InitialChannels()["foret"].(isMuted := false, volume := 0.6)
    ensures p.channels["oiseaux"] == InitialChannels()["oiseaux"].(isMuted := false, volume := 0.4)
    ensures p.channels["vent"]
         == InitialChannels()["vent"].(isMuted := false, volume := 0.3, autoVariationEnabled := true)
  {
    var base := InitialChannels();
    Preset(CalmPresetId, "Calme en forêt",
      base["foret" := base["foret"].(isMuted := false, volume := 0.6)]
          ["oiseaux" := base["oiseaux"].(isMuted := false, volume := 0.4)]
          ["vent" := base["vent"].(isMuted := false, volume := 0.3, autoVariationEnabled := true)])
  }

  /** "Orage lointain": pluie 0.7, tonnerre 0.6 with auto-variation and vent 0.4, all three unmuted. */
  function StormPreset(): (p: Preset)
    ensures p.id == StormPresetId && p.channels.Keys == InitialIds
    ensures DiffersOnlyIn(p.channels, InitialChannels(), {"pluie", "tonnerre", "vent"})
    ensures p.channels["pluie"] == InitialChannels()["pluie"].(isMuted := false, volume := 0.7)
    ensures p.channels["tonnerre"]
         == InitialChannels()["tonnerre"].(isMuted := false, volume := 0.6, autoVariationEnabled := true)
    ensures p.channels["vent"] == InitialChannels()["vent"].(isMuted := false, volume := 0.4)
  {
    var base := InitialChannels();
    Preset(StormPresetId, "Orage lointain",
      base["pluie" := base["pluie"].(isMuted := false, volume := 0.7)]
          ["tonnerre" := base["tonnerre"].(isMuted := false, volume := 0.6, autoVariationEnabled := true)]
          ["vent" := base["vent"].(isMuted := false, volume := 0.4)])
  }

  /** The two built-in ids differ, and neither starts with the prefix of generated user-preset ids. */
  lemma BuiltInIdsLackUserPrefix()
    ensures CalmPresetId != StormPresetId
    ensures !(UserPresetPrefix <= CalmPresetId) && !(UserPresetPrefix <= StormPresetId)
  {
    assert UserPresetPrefix[7] != CalmPresetId[7] && UserPresetPrefix[7] != StormPresetId[7];
  }

  /** DEFAULT_PRESETS: the calm and the storm preset, both over the default channel ids. */
  function DefaultPresets(): (ps: seq<Preset>)
    ensures |ps| == 2 && ps[0].id == CalmPresetId && ps[1].id == StormPresetId
    ensures forall i :: 0 <= i < |ps| ==> ps[i].channels.Keys == InitialIds
  {
    var calm, storm := CalmPreset(), StormPreset();
    [calm, storm]
  }

  /** Every volume in the built-in presets is a level in [0, 1] (the default channels are all at 0.5). */
  lemma CalmVolumesAreLevels()
    ensures forall k :: k in CalmPreset().channels ==> IsLevel(CalmPreset().channels[k].volume)
  {
    var calm := CalmPreset().channels;
    forall k | k in calm
      ensures IsLevel(calm[k].volume)
    {
      if k != "foret" && k != "oiseaux" && k != "vent" {
        assert calm[k] == InitialChannels()[k];
      }
    }
  }

  lemma StormVolumesAreLevels()
    ensures forall k :: k in StormPreset().channels ==> IsLevel(StormPreset().channels[k].volume)
  {
    var storm := StormPreset().channels;
    forall k | k in storm
      ensures IsLevel(storm[k].volume)
    {
      if k != "pluie" && k != "tonnerre" && k != "vent" {
        assert storm[k] == InitialChannels()[k];
      }
    }
  }
}
