/** The binaural track registry BINAURAL_TRACKS (src/config/binauralAudio.ts). */
module BinauralConfig {

  datatype BinauralTrackConfig = BinauralTrackConfig(id: string, source: string, isPremium: bool)

  /** The BinauralTrackId values. */
  const TrackIds: set<string> := {"delta", "theta", "alpha", "beta"}

  /** BINAURAL_TRACKS: four tracks keyed by their own id, delta the only free one. */
  function Tracks(): (m: map<string, BinauralTrackConfig>)
    ensures m.Keys == TrackIds
    ensures forall k :: k in m ==> m[k].id == k
    ensures forall k :: k in m ==> (m[k].isPremium <==> k != "delta")
  {
    map[
      "delta" := BinauralTrackConfig("delta", "assets/audio/1_binaural_sleep_delta.m4a", false),
      "theta" := BinauralTrackConfig("theta", "assets/audio/2_binaural_meditation_theta.m4a", true),
      "alpha" := BinauralTrackConfig("alpha", "assets/audio/3_binaural_relax_alpha.m4a", true),
      "beta" := BinauralTrackConfig("beta", "assets/audio/4_binaural_focus_beta.m4a", true)
    ]
  }
}
