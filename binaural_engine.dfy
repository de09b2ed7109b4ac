/**
 * The binaural layer's player (src/components/BinauralAudioEngine.tsx): one
 * looping player per binaural track, of which only the active one plays and
 * is audible. The binaural volume is not scaled by the channel fade.
 */
module BinauralEngine {
  import opened MixerTypes
  import opened MixerStore
  import opened AudioEngine
  import BinauralConfig

  /** TRACK_IDS: the order in which the track players are mounted. */
  const TrackOrder: seq<string> := ["delta", "theta", "alpha", "beta"]

  lemma TrackOrderCoversRegistry()
    ensures Distinct(TrackOrder)
    ensures forall t :: t in TrackOrder <==> t in BinauralConfig.Tracks()
  {
  }

  /** `isThisTrackActive`: the layer is on and this is the chosen track. */
  predicate IsThisTrackActive(s: MixerState, trackId: string) {
    s.isBinauralActive && s.activeBinauralTrack == trackId
  }

  /** The status a track player reaches once its play/pause and volume effects have run. */
  function TrackSync(st: PlayerStatus, active: bool, binauralVolume: real): PlayerStatus {
    st.(playing := active,
        volume := if active then binauralVolume else 0.0,
        commands := st.commands + AsList(TransportCommand(active, st.playing)))
  }

  /**
   * At most one track plays, and it is audible at the binaural volume; a track
   * plays iff the layer is on and it is the chosen one; every other track is
   * paused at volume 0.
   */
  lemma OnlyActiveTrackAudible(s: MixerState, before: seq<PlayerStatus>)
    requires |before| == |TrackOrder|
    ensures forall i, j :: 0 <= i < j < |TrackOrder| ==>
      !(TrackSync(before[i], IsThisTrackActive(s, TrackOrder[i]), s.binauralVolume).playing
        && TrackSync(before[j], IsThisTrackActive(s, TrackOrder[j]), s.binauralVolume).playing)
    ensures (exists i :: 0 <= i < |TrackOrder| && TrackSync(before[i], IsThisTrackActive(s, TrackOrder[i]), s.binauralVolume).playing)
            <==> s.isBinauralActive && s.activeBinauralTrack in BinauralConfig.Tracks()
    ensures forall i :: 0 <= i < |TrackOrder| ==>
      var n := TrackSync(before[i], IsThisTrackActive(s, TrackOrder[i]), s.binauralVolume);
      (n.playing ==> n.volume == s.binauralVolume) && (!n.playing ==> n.volume == 0.0)
  {
    TrackOrderCoversRegistry();
    if s.isBinauralActive && s.activeBinauralTrack in BinauralConfig.Tracks() {
      var i :| 0 <= i < |TrackOrder| && TrackOrder[i] == s.activeBinauralTrack;
      assert TrackSync(before[i], IsThisTrackActive(s, TrackOrder[i]), s.binauralVolume).playing;
    }
  }

  /** Switching the binaural layer off silences every track; switching track moves the sound to the new one. */
  lemma TrackSwitching(s: MixerState, t: string)
    ensures forall u :: !IsThisTrackActive(s.(isBinauralActive := false), u)
    ensures s.isBinauralActive ==>
      IsThisTrackActive(s.(activeBinauralTrack := t), t)
      && forall u :: u != t ==> !IsThisTrackActive(s.(activeBinauralTrack := t), u)
  {
  }

  /** The four track players. */
  class Engine {
    const players: seq<Player>

    ghost predicate Valid()
      reads this
    {
      |players| == |TrackOrder| && forall i, j :: 0 <= i < j < |players| ==> players[i] != players[j]
    }

    /** Mount: one fresh player per track, each set to loop by its mount effect. */
    constructor ()
      ensures Valid()
      ensures forall i :: 0 <= i < |players| ==> fresh(players[i]) && players[i].loop && !players[i].playing
    {
      var ps: seq<Player> := [];
      while |ps| < |TrackOrder|
        invariant |ps| <= |TrackOrder|
        invariant forall i :: 0 <= i < |ps| ==> fresh(ps[i]) && ps[i].loop && !ps[i].playing
        invariant forall i, j :: 0 <= i < j < |ps| ==> ps[i] != ps[j]
      {
        var p := new Player();
        p.loop := true;
        ps := ps + [p];
      }
      players := ps;
    }

    /** One track's play/pause and volume effects. */
    static method SyncTrack(p: Player, active: bool, binauralVolume: real)
      modifies p
      ensures p.Status() == TrackSync(old(p.Status()), active, binauralVolume)
    {
      if active {
        if !p.playing {
          p.Play();
        }
      } else {
        if p.playing {
          p.Pause();
        }
      }
      p.volume := if active then binauralVolume else 0.0;
    }

    /** Every track player's effects against the store's binaural fields. */
    method Sync(s: MixerState)
      requires Valid()
      modifies players
      ensures Valid()
      ensures forall i :: 0 <= i < |players| ==>
        players[i].Status() == TrackSync(old(players[i].Status()), IsThisTrackActive(s, TrackOrder[i]), s.binauralVolume)
    {
      var i := 0;
      while i < |players|
        invariant 0 <= i <= |players|
        invariant forall j :: 0 <= j < i ==>
          players[j].Status() == TrackSync(old(players[j].Status()), IsThisTrackActive(s, TrackOrder[j]), s.binauralVolume)
        invariant forall j :: i <= j < |players| ==> players[j].Status() == old(players[j].Status())
      {
        SyncTrack(players[i], IsThisTrackActive(s, TrackOrder[i]), s.binauralVolume);
        i := i + 1;
      }
    }
  }
}
