/** The audio registry AUDIO_CONFIG and the ChannelId key set (src/config/audio.ts). */
module AudioConfig {

  /** One registry entry: its id and the candidate sources (asset paths) it may play. */
  datatype AudioChannelConfig = AudioChannelConfig(id: string, sources: seq<string>)

  /** The keys of AUDIO_CONFIG, which is the type ChannelId: the post-rename ids. */
  const ChannelIds: set<string> :=
    {"oiseaux", "vent", "plage", "goelands", "foret", "pluie", "tonnerre",
     "cigales", "grillons", "ville", "voiture", "train"}

  function Entry(id: string, asset: string): AudioChannelConfig {
    AudioChannelConfig(id, ["assets/audio/" + asset])
  }

  /** The asset file AUDIO_CONFIG lists for an id (the thunder channel plays "orage1", the gulls "goelants1"). */
  function Asset(id: string): string {
    match id
    case "oiseaux" => "oiseaux1.m4a"
    case "vent" => "vent1.m4a"
    case "plage" => "plage1.m4a"
    case "goelands" => "goelants1.m4a"
    case "foret" => "foret1.m4a"
    case "pluie" => "pluie1.m4a"
    case "tonnerre" => "orage1.m4a"
    case "cigales" => "cigales1.m4a"
    case "grillons" => "grillons1.m4a"
    case "ville" => "ville1.m4a"
    case "voiture" => "voiture1.m4a"
    case "train" => "train1.m4a"
    case _ => ""
  }

  /** AUDIO_CONFIG: each entry keyed by its own id, with exactly one source. */
  function Registry(): (m: map<string, AudioChannelConfig>)
    ensures m.Keys == ChannelIds
    ensures forall k :: k in m ==> m[k].id == k
    ensures forall k :: k in m ==> |m[k].sources| == 1
  {
    map id | id in ChannelIds :: Entry(id, Asset(id))
  }

  /** The rename targets are registry ids and the renamed-away ids are not. */
  lemma RenameTargetsAreRegistryIds()
    ensures "plage" in ChannelIds && "goelands" in ChannelIds && "cigales" in ChannelIds
    ensures "mer" !in ChannelIds && "riviere" !in ChannelIds && "insectes" !in ChannelIds
  {
  }

  /** `Math.floor(r * n)` for r in [0, 1) is an index of a list of length n. */
  function RandomIndex(r: real, n: nat): (i: nat)
    requires 0.0 <= r < 1.0 && n > 0
    ensures i < n
  {
    assert 0.0 <= r * (n as real) < n as real by {
      assert r * (n as real) <= r * (n as real) + (1.0 - r) * (n as real);
    }
    (r * (n as real)).Floor
  }

  /** pickRandom: an element of a non-empty list chosen by a random number in [0, 1). */
  function PickRandom<T>(xs: seq<T>, r: real): (x: T)
    requires 0.0 <= r < 1.0 && |xs| > 0
    ensures x in xs
  {
    xs[RandomIndex(r, |xs|)]
  }

  /** Every channel's source list is one that pickRandom can pick from, for every roll. */
  lemma PickRandomAlwaysInRange(id: string, r: real)
    requires id in Registry() && 0.0 <= r < 1.0
    ensures PickRandom(Registry()[id].sources, r) == Registry()[id].sources[0]
  {
  }
}
