/**
 * The older playback hook (src/hooks/useAudioEngine.ts): nine players keyed
 * by the original channel ids, driven from one component. It shares the
 * per-player decisions of AudioEngine but differs in three ways: loop is set
 * only while playing, the volume is not faded, and one effect keyed on the
 * serialised (auto, muted) pairs of every channel schedules all auto-variations.
 * Its session-timer effect is the same code as AudioEngine.SessionTimer.
 */
module LegacyAudioEngine {
  import opened Wrappers
  import opened MixerTypes
  import opened MixerStore
  import opened AudioEngine
  import ChannelConstants

  /** The hook's players in declaration order, which is the order `Object.keys` visits them. */
  const LegacyIds: seq<string> :=
    ["oiseaux", "vent", "mer", "riviere", "foret", "pluie", "tonnerre", "insectes", "ville"]

  /** The hook keeps one player per id, and no id twice. */
  lemma LegacyIdsDistinct()
    ensures Distinct(LegacyIds)
  {
  }

  /** The hook's players are exactly the store's default channels. */
  lemma LegacyIdsAreInitialIds()
    ensures (set x | x in LegacyIds) == ChannelConstants.InitialIds
  {
  }

  predicate AllKeyed(keys: seq<string>, channels: Channels) {
    forall i :: 0 <= i < |keys| ==> keys[i] in channels
  }

  /** The channels the auto-variation effect starts, in key order. */
  function WantedIds(keys: seq<string>, channels: Channels, isPlaying: bool): (w: seq<string>)
    requires AllKeyed(keys, channels)
    ensures forall x :: x in w <==> x in keys && ChannelAudio.VariationWanted(channels[x], isPlaying)
    ensures forall x :: x in w ==> x in channels
    ensures |w| <= |keys|
  {
    if keys == [] then []
    else
      var last := keys[|keys| - 1];
      WantedIds(keys[..|keys| - 1], channels, isPlaying)
        + (if ChannelAudio.VariationWanted(channels[last], isPlaying) then [last] else [])
  }

  /** Over distinct keys, every channel gets at most one variation interval. */
  lemma {:induction false} WantedIdsDistinct(keys: seq<string>, channels: Channels, isPlaying: bool)
    requires AllKeyed(keys, channels) && Distinct(keys)
    ensures Distinct(WantedIds(keys, channels, isPlaying))
  {
    if keys != [] {
      var init := keys[..|keys| - 1];
      assert Distinct(init);
      WantedIdsDistinct(init, channels, isPlaying);
      var last := keys[|keys| - 1];
      assert last !in init;
    }
  }

  /** The effect's dependency: the (autoVariationEnabled, isMuted) pair of every player's channel. */
  function AutoConfig(keys: seq<string>, channels: Channels): (c: seq<(bool, bool)>)
    requires AllKeyed(keys, channels)
    ensures |c| == |keys|
  {
    seq(|keys|, i requires 0 <= i < |keys| => (channels[keys[i]].autoVariationEnabled, channels[keys[i]].isMuted))
  }

  /** Volume writes, manual or automatic, leave the dependency unchanged, so they never restart the variations. */
  lemma AutoConfigIgnoresVolume(keys: seq<string>, s: MixerState, id: string, v: real)
    requires AllKeyed(keys, s.channels) && id in s.channels
    ensures AllKeyed(keys, ChannelVolumeSet(s, id, v).channels)
    ensures AutoConfig(keys, ChannelVolumeSet(s, id, v).channels) == AutoConfig(keys, s.channels)
    ensures AutoConfig(keys, AutoChannelVolumeSet(s, id, v).channels) == AutoConfig(keys, s.channels)
  {
  }

  /** Toggling a player's mute changes the dependency, so the variations restart. */
  lemma AutoConfigSeesMuteToggle(keys: seq<string>, s: MixerState, i: nat)
    requires AllKeyed(keys, s.channels) && i < |keys|
    ensures AllKeyed(keys, ChannelMuteToggled(s, keys[i]).channels)
    ensures AutoConfig(keys, ChannelMuteToggled(s, keys[i]).channels) != AutoConfig(keys, s.channels)
  {
    assert AutoConfig(keys, ChannelMuteToggled(s, keys[i]).channels)[i].1 != AutoConfig(keys, s.channels)[i].1;
  }

  /** The started channels depend only on the dependency and isPlaying. */
  lemma {:induction false} WantedIdsFollowAutoConfig(keys: seq<string>, c1: Channels, c2: Channels, isPlaying: bool)
    requires AllKeyed(keys, c1) && AllKeyed(keys, c2)
    requires AutoConfig(keys, c1) == AutoConfig(keys, c2)
    ensures WantedIds(keys, c1, isPlaying) == WantedIds(keys, c2, isPlaying)
  {
    if keys != [] {
      var n := |keys| - 1;
      var init := keys[..n];
      assert AllKeyed(init, c1) && AllKeyed(init, c2);
      assert AutoConfig(init, c1) == AutoConfig(init, c2) by {
        forall i | 0 <= i < n
          ensures AutoConfig(init, c1)[i] == AutoConfig(init, c2)[i]
        {
          assert AutoConfig(keys, c1)[i] == AutoConfig(keys, c2)[i];
        }
      }
      WantedIdsFollowAutoConfig(init, c1, c2, isPlaying);
      var last := keys[n];
      assert AutoConfig(keys, c1)[n] == AutoConfig(keys, c2)[n];
      var wanted := ChannelAudio.VariationWanted(c1[last], isPlaying);
      assert wanted == ChannelAudio.VariationWanted(c2[last], isPlaying);
      var tail := if wanted then [last] else [];
      assert WantedIds(keys, c1, isPlaying) == WantedIds(init, c1, isPlaying) + tail;
      assert WantedIds(keys, c2, isPlaying) == WantedIds(init, c2, isPlaying) + tail;
    }
  }

  /** One player's part of the play/pause effect; reports whether it seeked. */
  method ReconcilePlayer(p: Player, isPlaying: bool, initialized: bool, r: real) returns (seeked: bool)
    requires 0.0 <= r < 1.0
    modifies p
    ensures p.Status() == LegacyTransport(old(p.Status()), isPlaying, initialized, r)
    ensures seeked == SeeksOnSync(old(p.Status()), isPlaying, initialized)
  {
    ghost var st := p.Status();
    ghost var t := AsList(TransportCommand(isPlaying, st.playing));
    seeked := false;
    if isPlaying {
      p.loop := true;
      if !p.playing {
        p.Play();
      }
      if p.isLoaded && !initialized && p.duration > 0.0 {
        var target := OffsetTarget(r, p.duration);
        assert [SeekTo(target)] == SeekPart(true, r, st.duration);
        p.Seek(target);
        seeked := true;
      } else {
        assert st.commands + t == st.commands + t + SeekPart(false, r, st.duration);
      }
    } else {
      if p.playing {
        p.Pause();
      }
      assert st.commands + t == st.commands + t + SeekPart(false, r, st.duration);
    }
  }

  /** One player's part of the offset poll; reports whether it seeked. */
  method PollPlayer(p: Player, initialized: bool, r: real) returns (seeked: bool)
    requires 0.0 <= r < 1.0
    modifies p
    ensures p.Status() == PollSeek(old(p.Status()), initialized, r)
    ensures seeked == CanSeek(old(p.isLoaded), initialized, old(p.duration))
  {
    ghost var st := p.Status();
    seeked := false;
    if p.isLoaded && !initialized && p.duration > 0.0 {
      var target := OffsetTarget(r, p.duration);
      assert [SeekTo(target)] == SeekPart(true, r, st.duration);
      p.Seek(target);
      seeked := true;
    } else {
      assert st.commands == st.commands + SeekPart(false, r, st.duration);
    }
  }

  /** The ramp `triggerVariation` starts for channel `id`: from its stored volume toward the drawn target. */
  function StartRamp(channels: Channels, id: string, deltaRoll: real): (r: (string, Ramp))
    requires id in channels && 0.0 <= deltaRoll < 1.0
    ensures r.0 == id && r.1.step == 0 && r.1.from == channels[id].volume && IsLevel(r.1.target)
  {
    (id, Ramp(channels[id].volume, VariationTarget(channels[id].volume, deltaRoll), 0))
  }

  predicate Rolls(rs: seq<real>, n: nat) {
    |rs| >= n && forall i :: 0 <= i < |rs| ==> 0.0 <= rs[i] < 1.0
  }

  /** The intervals and ramps scheduled so far by one run of the auto-variation effect. */
  type Scheduled = (seq<(string, real)>, seq<(string, Ramp)>)

  /**
   * One key of the effect's loop: a wanted channel gets a variation interval
   * on the next period draw and a first ramp toward the next target draw.
   */
  function ScheduleNext(acc: Scheduled, id: string, channels: Channels, isPlaying: bool,
                        periodRolls: seq<real>, deltaRolls: seq<real>): (r: Scheduled)
    requires id in channels && Rolls(periodRolls, |acc.0| + 1) && Rolls(deltaRolls, |acc.0| + 1)
    ensures |acc.0| <= |r.0| <= |acc.0| + 1 && |r.1| - |acc.1| == |r.0| - |acc.0|
  {
    if ChannelAudio.VariationWanted(channels[id], isPlaying) then
      (acc.0 + [(id, VariationPeriod(periodRolls[|acc.0|]))], acc.1 + [StartRamp(channels, id, deltaRolls[|acc.0|])])
    else acc
  }

  /** The intervals one run of the auto-variation effect schedules, over the keys in order. */
  function Schedule(keys: seq<string>, channels: Channels, isPlaying: bool,
                    periodRolls: seq<real>, deltaRolls: seq<real>): (r: Scheduled)
    requires AllKeyed(keys, channels) && Rolls(periodRolls, |keys|) && Rolls(deltaRolls, |keys|)
    ensures |r.0| == |r.1| <= |keys|
  {
    if keys == [] then ([], [])
    else
      var n := |keys| - 1;
      assert AllKeyed(keys[..n], channels);
      ScheduleNext(Schedule(keys[..n], channels, isPlaying, periodRolls, deltaRolls), keys[n], channels, isPlaying,
                   periodRolls, deltaRolls)
  }

  /**
   * The j-th wanted channel, in key order, gets the variation interval on the
   * period drawn from `periodRolls[j]` and the first ramp toward the target
   * drawn from `deltaRolls[j]`, and no other channel gets any.
   */
  lemma {:induction false} ScheduleFollowsWanted(keys: seq<string>, channels: Channels, isPlaying: bool,
                                                 periodRolls: seq<real>, deltaRolls: seq<real>)
    requires AllKeyed(keys, channels) && Rolls(periodRolls, |keys|) && Rolls(deltaRolls, |keys|)
    ensures var r := Schedule(keys, channels, isPlaying, periodRolls, deltaRolls);
      var w := WantedIds(keys, channels, isPlaying);
      && |r.0| == |w|
      && (forall j :: 0 <= j < |w| ==> r.0[j] == (w[j], VariationPeriod(periodRolls[j])))
      && (forall j :: 0 <= j < |w| ==> r.1[j] == StartRamp(channels, w[j], deltaRolls[j]))
  {
    if keys != [] {
      var n := |keys| - 1;
      var init := keys[..n];
      assert AllKeyed(init, channels);
      ScheduleFollowsWanted(init, channels, isPlaying, periodRolls, deltaRolls);
      var r0, w0 := Schedule(init, channels, isPlaying, periodRolls, deltaRolls), WantedIds(init, channels, isPlaying);
      var r, w := Schedule(keys, channels, isPlaying, periodRolls, deltaRolls), WantedIds(keys, channels, isPlaying);
      assert r == ScheduleNext(r0, keys[n], channels, isPlaying, periodRolls, deltaRolls);
      if ChannelAudio.VariationWanted(channels[keys[n]], isPlaying) {
        assert w == w0 + [keys[n]];
        assert r.0 == r0.0 + [(keys[n], VariationPeriod(periodRolls[|w0|]))];
        assert r.1 == r0.1 + [StartRamp(channels, keys[n], deltaRolls[|w0|])];
      } else {
        assert w == w0 && r == r0;
      }
    }
  }

  /** Scheduling one more key extends the schedule by that key's intervals, if it is wanted. */
  lemma ScheduleStep(keys: seq<string>, i: nat, channels: Channels, isPlaying: bool,
                     periodRolls: seq<real>, deltaRolls: seq<real>)
    requires i < |keys| && AllKeyed(keys, channels) && Rolls(periodRolls, |keys|) && Rolls(deltaRolls, |keys|)
    ensures AllKeyed(keys[..i], channels) && AllKeyed(keys[..i + 1], channels)
    ensures |Schedule(keys[..i], channels, isPlaying, periodRolls, deltaRolls).0| <= i
    ensures Schedule(keys[..i + 1], channels, isPlaying, periodRolls, deltaRolls)
         == ScheduleNext(Schedule(keys[..i], channels, isPlaying, periodRolls, deltaRolls), keys[i], channels,
                         isPlaying, periodRolls, deltaRolls)
  {
    assert keys[..i + 1][..i] == keys[..i];
  }

  /** Each run schedules every wanted channel once, on a period of 8 to 16 s, with a ramp toward a level. */
  lemma ScheduleWellFormed(keys: seq<string>, channels: Channels, isPlaying: bool,
                           periodRolls: seq<real>, deltaRolls: seq<real>)
    requires AllKeyed(keys, channels) && Rolls(periodRolls, |keys|) && Rolls(deltaRolls, |keys|)
    requires Distinct(keys)
    ensures var (v, f) := Schedule(keys, channels, isPlaying, periodRolls, deltaRolls);
      && (forall id :: (exists j :: 0 <= j < |v| && v[j].0 == id)
                       <==> id in keys && ChannelAudio.VariationWanted(channels[id], isPlaying))
      && (forall j, k :: 0 <= j < k < |v| ==> v[j].0 != v[k].0)
      && (forall j :: 0 <= j < |v| ==> 8000.0 <= v[j].1 < 16000.0)
      && (forall j :: 0 <= j < |f| ==> f[j].1.step == 0 && IsLevel(f[j].1.target) && f[j].0 == v[j].0)
  {
    ScheduleIds(keys, channels, isPlaying, periodRolls, deltaRolls);
    ScheduleBounds(keys, channels, isPlaying, periodRolls, deltaRolls);
  }

  /** The channels a run schedules are the wanted ones, each once. */
  lemma ScheduleIds(keys: seq<string>, channels: Channels, isPlaying: bool,
                    periodRolls: seq<real>, deltaRolls: seq<real>)
    requires AllKeyed(keys, channels) && Rolls(periodRolls, |keys|) && Rolls(deltaRolls, |keys|)
    requires Distinct(keys)
    ensures var v := Schedule(keys, channels, isPlaying, periodRolls, deltaRolls).0;
      && (forall id :: (exists j :: 0 <= j < |v| && v[j].0 == id)
                       <==> id in keys && ChannelAudio.VariationWanted(channels[id], isPlaying))
      && (forall j, k :: 0 <= j < k < |v| ==> v[j].0 != v[k].0)
  {
    var w := WantedIds(keys, channels, isPlaying);
    WantedIdsDistinct(keys, channels, isPlaying);
    ScheduleFollowsWanted(keys, channels, isPlaying, periodRolls, deltaRolls);
    var v := Schedule(keys, channels, isPlaying, periodRolls, deltaRolls).0;
    forall id | id in keys && ChannelAudio.VariationWanted(channels[id], isPlaying)
      ensures exists j :: 0 <= j < |v| && v[j].0 == id
    {
      var j :| 0 <= j < |w| && w[j] == id;
      assert v[j].0 == id;
    }
  }

  /** Each scheduled period lies in 8 to 16 s and each first ramp starts at step 0 toward a level. */
  lemma ScheduleBounds(keys: seq<string>, channels: Channels, isPlaying: bool,
                       periodRolls: seq<real>, deltaRolls: seq<real>)
    requires AllKeyed(keys, channels) && Rolls(periodRolls, |keys|) && Rolls(deltaRolls, |keys|)
    ensures var (v, f) := Schedule(keys, channels, isPlaying, periodRolls, deltaRolls);
      && (forall j :: 0 <= j < |v| ==> 8000.0 <= v[j].1 < 16000.0)
      && (forall j :: 0 <= j < |f| ==> f[j].1.step == 0 && IsLevel(f[j].1.target) && f[j].0 == v[j].0)
  {
    var w := WantedIds(keys, channels, isPlaying);
    ScheduleFollowsWanted(keys, channels, isPlaying, periodRolls, deltaRolls);
    var (v, f) := Schedule(keys, channels, isPlaying, periodRolls, deltaRolls);
    forall j | 0 <= j < |v| ensures 8000.0 <= v[j].1 < 16000.0 {
      assert v[j].1 == VariationPeriod(periodRolls[j]);
    }
    forall j | 0 <= j < |f| ensures f[j].1.step == 0 && IsLevel(f[j].1.target) && f[j].0 == v[j].0 {
      assert f[j] == StartRamp(channels, w[j], deltaRolls[j]);
    }
  }

  /** Distinct players: changing one leaves the others as they were. */
  ghost predicate DistinctPlayers(players: seq<Player>) {
    forall i, j :: 0 <= i < j < |players| ==> players[i] != players[j]
  }

  /** The `useRef` initialiser: `n` fresh, distinct players that have not been sent a command. */
  method NewPlayers(n: nat) returns (ps: seq<Player>)
    ensures |ps| == n && DistinctPlayers(ps)
    ensures forall i :: 0 <= i < n ==> fresh(ps[i]) && ps[i].commands == []
  {
    ps := [];
    while |ps| < n
      invariant |ps| <= n && DistinctPlayers(ps)
      invariant forall i :: 0 <= i < |ps| ==> fresh(ps[i]) && ps[i].commands == []
    {
      var p := new Player();
      ps := ps + [p];
    }
  }

  /** The play/pause effect's `forEach`: reconcile each player in turn, setting the flag of each that seeks. */
  method ReconcileAll(players: seq<Player>, flags: seq<bool>, isPlaying: bool, rolls: seq<real>)
    returns (newFlags: seq<bool>)
    requires |flags| == |players| && DistinctPlayers(players) && Rolls(rolls, |players|)
    modifies set p | p in players
    ensures |newFlags| == |players|
    ensures forall i :: 0 <= i < |players| ==>
      players[i].Status() == LegacyTransport(old(players[i].Status()), isPlaying, flags[i], rolls[i])
    ensures forall i :: 0 <= i < |players| ==>
      newFlags[i] == (flags[i] || SeeksOnSync(old(players[i].Status()), isPlaying, flags[i]))
  {
    newFlags := flags;
    var i := 0;
    while i < |players|
      invariant 0 <= i <= |players| && |newFlags| == |players|
      invariant forall j :: 0 <= j < i ==>
        players[j].Status() == LegacyTransport(old(players[j].Status()), isPlaying, flags[j], rolls[j])
      invariant forall j :: i <= j < |players| ==> players[j].Status() == old(players[j].Status())
      invariant forall j :: 0 <= j < i ==>
        newFlags[j] == (flags[j] || SeeksOnSync(old(players[j].Status()), isPlaying, flags[j]))
      invariant forall j :: i <= j < |players| ==> newFlags[j] == flags[j]
    {
      var seeked := ReconcilePlayer(players[i], isPlaying, flags[i], rolls[i]);
      if seeked {
        newFlags := newFlags[i := true];
      }
      i := i + 1;
    }
  }

  /** The offset poll's `forEach`: seek each loaded player whose flag is unset, and set its flag. */
  method PollAll(players: seq<Player>, flags: seq<bool>, rolls: seq<real>) returns (newFlags: seq<bool>)
    requires |flags| == |players| && DistinctPlayers(players) && Rolls(rolls, |players|)
    modifies set p | p in players
    ensures |newFlags| == |players|
    ensures forall i :: 0 <= i < |players| ==>
      players[i].Status() == PollSeek(old(players[i].Status()), flags[i], rolls[i])
    ensures forall i :: 0 <= i < |players| ==>
      newFlags[i] == (flags[i] || CanSeek(old(players[i].isLoaded), false, old(players[i].duration)))
  {
    newFlags := flags;
    var i := 0;
    while i < |players|
      invariant 0 <= i <= |players| && |newFlags| == |players|
      invariant forall j :: 0 <= j < i ==>
        players[j].Status() == PollSeek(old(players[j].Status()), flags[j], rolls[j])
      invariant forall j :: i <= j < |players| ==> players[j].Status() == old(players[j].Status())
      invariant forall j :: 0 <= j < i ==>
        newFlags[j] == (flags[j] || CanSeek(old(players[j].isLoaded), false, old(players[j].duration)))
      invariant forall j :: i <= j < |players| ==> newFlags[j] == flags[j]
    {
      var seeked := PollPlayer(players[i], newFlags[i], rolls[i]);
      if seeked {
        newFlags := newFlags[i := true];
      }
      i := i + 1;
    }
  }

  /** The auto-variation effect's loop over the keys, in order: the intervals it starts. */
  method ScheduleVariations(keys: seq<string>, channels: Channels, isPlaying: bool,
                            periodRolls: seq<real>, deltaRolls: seq<real>)
    returns (variations: seq<(string, real)>, ramps: seq<(string, Ramp)>)
    requires AllKeyed(keys, channels) && Rolls(periodRolls, |keys|) && Rolls(deltaRolls, |keys|)
    ensures (variations, ramps) == Schedule(keys, channels, isPlaying, periodRolls, deltaRolls)
  {
    variations, ramps := [], [];
    var i := 0;
    while i < |keys|
      invariant 0 <= i <= |keys| && AllKeyed(keys[..i], channels)
      invariant (variations, ramps) == Schedule(keys[..i], channels, isPlaying, periodRolls, deltaRolls)
    {
      ScheduleStep(keys, i, channels, isPlaying, periodRolls, deltaRolls);
      var id := keys[i];
      if ChannelAudio.VariationWanted(channels[id], isPlaying) {
        var n := |variations|;
        var currentVol := channels[id].volume;
        variations := variations + [(id, VariationPeriod(periodRolls[n]))];
        ramps := ramps + [(id, Ramp(currentVol, VariationTarget(currentVol, deltaRolls[n]), 0))];
      }
      i := i + 1;
    }
    assert keys[..|keys|] == keys;
  }

  /** The hook's state: its players, the offset flags and the timers its effects scheduled. */
  class Engine {
    const keys: seq<string>
    const players: seq<Player>

    /** `initializedOffsets.current`, as one flag per key: the record only ever holds the hook's own ids. */
    var initializedOffsets: seq<bool>
    /** The 500 ms offset poll is scheduled. */
    var offsetPollActive: bool
    /** `variationIntervals`: the channel and period of each running variation interval. */
    var variationIntervals: seq<(string, real)>
    /** `fadeIntervals`: every ramp the current run started; one with all steps written has been cleared. */
    var fadeIntervals: seq<(string, Ramp)>

    ghost predicate Valid()
      reads this
    {
      Structure() && TimersWellFormed()
    }

    /** One distinct player and one flag per distinct id. */
    ghost predicate Structure()
      reads this
    {
      && |players| == |keys| && |initializedOffsets| == |keys| && Distinct(keys)
      && DistinctPlayers(players)
    }

    ghost predicate TimersWellFormed()
      reads this
    {
      && (forall j :: 0 <= j < |variationIntervals| ==> 8000.0 <= variationIntervals[j].1 < 16000.0)
      && (forall j :: 0 <= j < |fadeIntervals| ==>
            fadeIntervals[j].1.step <= RampSteps && IsLevel(fadeIntervals[j].1.target))
    }

    /** The hook's first render: one fresh player per id, nothing scheduled. */
    constructor ()
      ensures Valid() && keys == LegacyIds
      ensures forall i :: 0 <= i < |players| ==> fresh(players[i]) && players[i].commands == []
      ensures initializedOffsets == seq(|LegacyIds|, _ => false) && !offsetPollActive
      ensures variationIntervals == [] && fadeIntervals == []
    {
      var ps := NewPlayers(|LegacyIds|);
      keys := LegacyIds;
      players := ps;
      initializedOffsets := seq(|LegacyIds|, _ => false);
      offsetPollActive := false;
      variationIntervals, fadeIntervals := [], [];
      LegacyIdsDistinct();
    }

    /**
     * Effect 2 (on isPlaying): reconcile every player in key order, then
     * schedule the 500 ms poll while playing.
     */
    method SyncTransport(isPlaying: bool, rolls: seq<real>)
      requires Valid() && Rolls(rolls, |keys|)
      modifies this, players
      ensures Valid()
      ensures forall i :: 0 <= i < |keys| ==>
        players[i].Status() == LegacyTransport(old(players[i].Status()), isPlaying, old(initializedOffsets[i]), rolls[i])
      ensures forall i :: 0 <= i < |keys| ==>
        initializedOffsets[i] == (old(initializedOffsets[i]) || SeeksOnSync(old(players[i].Status()), isPlaying, old(initializedOffsets[i])))
      ensures offsetPollActive == isPlaying
      ensures variationIntervals == old(variationIntervals) && fadeIntervals == old(fadeIntervals)
    {
      initializedOffsets := ReconcileAll(players, initializedOffsets, isPlaying, rolls);
      offsetPollActive := isPlaying;
    }

    /** One firing of the 500 ms poll: seek every loaded player not yet seeked. */
    method OffsetPollTick(rolls: seq<real>)
      requires Valid() && Rolls(rolls, |keys|)
      modifies this, players
      ensures Valid()
      ensures forall i :: 0 <= i < |keys| ==>
        players[i].Status() == (if offsetPollActive then PollSeek(old(players[i].Status()), old(initializedOffsets[i]), rolls[i])
                                else old(players[i].Status()))
      ensures forall i :: 0 <= i < |keys| ==>
        initializedOffsets[i]
        == (old(initializedOffsets[i]) || (offsetPollActive && CanSeek(old(players[i].isLoaded), false, old(players[i].duration))))
      ensures offsetPollActive == old(offsetPollActive)
      ensures variationIntervals == old(variationIntervals) && fadeIntervals == old(fadeIntervals)
    {
      if !offsetPollActive {
        return;
      }
      initializedOffsets := PollAll(players, initializedOffsets, rolls);
    }

    /** Effect 3 (on channels): each player's volume is its channel's, or 0 when muted; no fade applies here. */
    method SyncVolumes(channels: Channels)
      requires Valid() && AllKeyed(keys, channels)
      modifies players
      ensures Valid()
      ensures forall i :: 0 <= i < |keys| ==>
        players[i].Status() == old(players[i].Status()).(volume := EffectiveVolume(channels[keys[i]], 1.0))
    {
      var i := 0;
      while i < |keys|
        invariant 0 <= i <= |keys| && Structure()
        invariant forall j :: 0 <= j < i ==>
          players[j].Status() == old(players[j].Status()).(volume := EffectiveVolume(channels[keys[j]], 1.0))
        invariant forall j :: i <= j < |keys| ==> players[j].Status() == old(players[j].Status())
      {
        var state := channels[keys[i]];
        players[i].volume := if state.isMuted then 0.0 else state.volume;
        i := i + 1;
      }
    }

    /**
     * Effect 4 (on isPlaying and the (auto, muted) pairs): the cleanup clears
     * every interval of the previous run; then, in key order, each wanted
     * channel gets a variation interval and its first ramp. The j-th started
     * channel draws `periodRolls[j]` and `deltaRolls[j]`.
     */
    method RestartVariations(store: Store, isPlaying: bool, periodRolls: seq<real>, deltaRolls: seq<real>)
      requires Valid() && AllKeyed(keys, store.channels)
      requires Rolls(periodRolls, |keys|) && Rolls(deltaRolls, |keys|)
      modifies this
      ensures Valid()
      ensures (variationIntervals, fadeIntervals) == Schedule(keys, store.channels, isPlaying, periodRolls, deltaRolls)
      ensures initializedOffsets == old(initializedOffsets) && offsetPollActive == old(offsetPollActive)
    {
      variationIntervals, fadeIntervals := ScheduleVariations(keys, store.channels, isPlaying, periodRolls, deltaRolls);
      ScheduleWellFormed(keys, store.channels, isPlaying, periodRolls, deltaRolls);
    }

    /** One firing of variation interval `j`: a new ramp from the channel's current volume. */
    method VariationTick(store: Store, j: nat, deltaRoll: real)
      requires Valid() && j < |variationIntervals| && variationIntervals[j].0 in store.channels
      requires 0.0 <= deltaRoll < 1.0
      modifies this
      ensures Valid()
      ensures variationIntervals == old(variationIntervals)
      ensures fadeIntervals == old(fadeIntervals) + [StartRamp(store.channels, variationIntervals[j].0, deltaRoll)]
      ensures initializedOffsets == old(initializedOffsets) && offsetPollActive == old(offsetPollActive)
    {
      var id := variationIntervals[j].0;
      var currentVol := store.channels[id].volume;
      fadeIntervals := fadeIntervals + [(id, Ramp(currentVol, VariationTarget(currentVol, deltaRoll), 0))];
    }

    /**
     * One firing of ramp interval `j`: the next value goes through the
     * auto-variation setter; a ramp whose 30 steps are written is cleared.
     */
    method RampTick(store: Store, j: nat)
      requires Valid() && j < |fadeIntervals| && fadeIntervals[j].0 in store.channels
      modifies this, store
      ensures Valid()
      ensures var (id, rp) := old(fadeIntervals[j]);
        if rp.step < RampSteps then
          && store.Snapshot() == AutoChannelVolumeSet(old(store.Snapshot()), id, RampValue(rp.from, rp.target, rp.step + 1))
          && fadeIntervals == old(fadeIntervals)[j := (id, rp.(step := rp.step + 1))]
        else
          store.Snapshot() == old(store.Snapshot()) && fadeIntervals == old(fadeIntervals)
      ensures variationIntervals == old(variationIntervals)
      ensures initializedOffsets == old(initializedOffsets) && offsetPollActive == old(offsetPollActive)
    {
      var (id, rp) := fadeIntervals[j];
      if rp.step < RampSteps {
        var step := rp.step + 1;
        store.SetAutoChannelVolume(id, RampValue(rp.from, rp.target, step));
        fadeIntervals := fadeIntervals[j := (id, rp.(step := step))];
      }
    }

    /** The cleanup of effect 4: every variation and ramp interval of the run is cleared; the store keeps the last written volumes. */
    method ClearVariations()
      requires Valid()
      modifies this
      ensures Valid() && variationIntervals == [] && fadeIntervals == []
      ensures initializedOffsets == old(initializedOffsets) && offsetPollActive == old(offsetPollActive)
    {
      variationIntervals, fadeIntervals := [], [];
    }
  }
}
