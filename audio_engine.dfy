/**
 * The playback engine (src/components/AudioEngine.tsx): one ChannelAudio per
 * audio-registry id reconciling an expo-audio player with the store, the
 * global fade multiplier and the end-of-session timer. Every `setInterval`
 * callback is an explicit tick method; `Math.random` draws and `Date.now`
 * are parameters.
 */
module AudioEngine {
  import opened Wrappers
  import opened MixerTypes
  import opened MixerStore
  import AudioConfig
  import ChannelConstants

  // ---------------------------------------------------------------------------
  // The external player
  // ---------------------------------------------------------------------------

  /** A command the engine issues to a player. */
  datatype Command = Play | Pause | SeekTo(position: real)

  /** The observable state of a player. */
  datatype PlayerStatus = PlayerStatus(playing: bool, loop: bool, volume: real, isLoaded: bool,
                                       duration: real, commands: seq<Command>)

  /**
   * An expo-audio player: the status the engine reads, the fields it assigns
   * and the log of commands it has been sent.
   */
  class Player {
    var playing: bool
    var loop: bool
    var volume: real
    var isLoaded: bool
    var duration: real
    var commands: seq<Command>

    function Status(): PlayerStatus
      reads this
    {
      PlayerStatus(playing, loop, volume, isLoaded, duration, commands)
    }

    constructor ()
      ensures !playing && !loop && volume == 1.0 && !isLoaded && duration == 0.0 && commands == []
    {
      playing, loop, volume, isLoaded, duration, commands := false, false, 1.0, false, 0.0, [];
    }

    method Play()
      modifies this
      ensures playing && commands == old(commands) + [Command.Play]
      ensures loop == old(loop) && volume == old(volume)
      ensures isLoaded == old(isLoaded) && duration == old(duration)
    {
      playing := true;
      commands := commands + [Command.Play];
    }

    method Pause()
      modifies this
      ensures !playing && commands == old(commands) + [Command.Pause]
      ensures loop == old(loop) && volume == old(volume)
      ensures isLoaded == old(isLoaded) && duration == old(duration)
    {
      playing := false;
      commands := commands + [Command.Pause];
    }

    method Seek(position: real)
      modifies this
      ensures commands == old(commands) + [SeekTo(position)]
      ensures playing == old(playing) && loop == old(loop) && volume == old(volume)
      ensures isLoaded == old(isLoaded) && duration == old(duration)
    {
      commands := commands + [SeekTo(position)];
    }
  }

  // ---------------------------------------------------------------------------
  // Decisions shared with the older engine
  // ---------------------------------------------------------------------------

  /** The play/pause call that brings a player to the wanted state, if one is needed. */
  function TransportCommand(wantPlaying: bool, playing: bool): (c: Option<Command>)
    ensures c == Some(Play) <==> wantPlaying && !playing
    ensures c == Some(Pause) <==> !wantPlaying && playing
    ensures c == None <==> wantPlaying == playing
  {
    if wantPlaying && !playing then Some(Play)
    else if !wantPlaying && playing then Some(Pause)
    else None
  }

  function AsList(c: Option<Command>): seq<Command> {
    if c.Some? then [c.value] else []
  }

  /** The player's volume: 0 when muted, else the channel volume, scaled by the fade multiplier. */
  function EffectiveVolume(c: ChannelState, fadeMultiplier: real): (v: real)
    ensures c.isMuted ==> v == 0.0
    ensures IsLevel(c.volume) && IsLevel(fadeMultiplier) ==> 0.0 <= v <= c.volume
    ensures !c.isMuted && fadeMultiplier == 1.0 ==> v == c.volume
    ensures fadeMultiplier == 0.0 ==> v == 0.0
  {
    var base := if c.isMuted then 0.0 else c.volume;
    assert 0.0 <= base && IsLevel(fadeMultiplier) ==> 0.0 <= base * fadeMultiplier <= base by {
      if 0.0 <= base && IsLevel(fadeMultiplier) {
        ProductNonNegative(base, fadeMultiplier);
        ProductNonNegative(base, 1.0 - fadeMultiplier);
        assert base - base * fadeMultiplier == base * (1.0 - fadeMultiplier);
      }
    }
    base * fadeMultiplier
  }

  lemma ProductNonNegative(a: real, b: real)
    requires 0.0 <= a && 0.0 <= b
    ensures 0.0 <= a * b
  {
  }

  /** The random start offset may be applied: the player is loaded with a known length and has not been seeked. */
  predicate CanSeek(isLoaded: bool, initialized: bool, duration: real) {
    isLoaded && !initialized && duration > 0.0
  }

  /** `Math.random() * duration`: a position inside the track. */
  function OffsetTarget(r: real, duration: real): (t: real)
    requires 0.0 <= r < 1.0 && duration > 0.0
    ensures 0.0 <= t < duration
  {
    assert r * duration < duration by {
      assert r * duration + (1.0 - r) * duration == duration;
    }
    r * duration
  }

  /** `Math.max(0, Math.min(1, v))`: the level nearest to `v`. */
  function Clamp(v: real): (c: real)
    ensures IsLevel(c)
    ensures IsLevel(v) ==> c == v
    ensures v < 0.0 ==> c == 0.0
    ensures v > 1.0 ==> c == 1.0
  {
    if v < 0.0 then 0.0 else if v > 1.0 then 1.0 else v
  }

  /**
   * The auto-variation target: the current volume moved by a delta in
   * [-0.25, 0.25), clamped to [0, 1].
   */
  function VariationTarget(current: real, r: real): (t: real)
    requires 0.0 <= r < 1.0
    ensures IsLevel(t)
    ensures IsLevel(current + (r * 0.5 - 0.25)) ==> t == current + (r * 0.5 - 0.25)
    ensures current + (r * 0.5 - 0.25) < 0.0 ==> t == 0.0
    ensures current + (r * 0.5 - 0.25) > 1.0 ==> t == 1.0
    ensures IsLevel(current) ==> current - 0.25 <= t < current + 0.25
  {
    assert -0.25 <= r * 0.5 - 0.25 < 0.25;
    Clamp(current + (r * 0.5 - 0.25))
  }

  /** The variation period, drawn once per activation: `8000 + Math.random() * 8000` ms. */
  function VariationPeriod(r: real): (ms: real)
    requires 0.0 <= r < 1.0
    ensures 8000.0 <= ms < 16000.0
  {
    assert 0.0 <= r * 8000.0 < 8000.0;
    8000.0 + r * 8000.0
  }

  /** Number of 100 ms steps of one variation ramp. */
  const RampSteps: nat := 30

  /** The volume the ramp writes at step `k`: `current + stepDelta * k`. */
  function RampValue(from: real, target: real, k: nat): real {
    from + (target - from) / (RampSteps as real) * (k as real)
  }

  /** Every ramp write lies between the start and the target, and the last one is the target. */
  lemma RampStaysBetween(from: real, target: real, k: nat)
    requires 1 <= k <= RampSteps
    ensures from <= target ==> from <= RampValue(from, target, k) <= target
    ensures target <= from ==> target <= RampValue(from, target, k) <= from
    ensures k == RampSteps ==> RampValue(from, target, k) == target
    ensures IsLevel(from) && IsLevel(target) ==> IsLevel(RampValue(from, target, k))
  {
    var d := (target - from) / 30.0;
    assert RampValue(from, target, k) == from + d * (k as real);
    assert 0.0 < (k as real) <= 30.0;
    if from <= target {
      assert 0.0 <= d;
      assert d * (k as real) <= d * 30.0;
    } else {
      assert d <= 0.0;
      assert d * 30.0 <= d * (k as real);
    }
  }

  /** Successive ramp writes move monotonically toward the target. */
  lemma RampMonotone(from: real, target: real, k: nat)
    requires k < RampSteps
    ensures from <= target ==> RampValue(from, target, k) <= RampValue(from, target, k + 1)
    ensures target <= from ==> RampValue(from, target, k + 1) <= RampValue(from, target, k)
  {
    var d := (target - from) / 30.0;
    assert RampValue(from, target, k + 1) == RampValue(from, target, k) + d;
  }

  /** The random-offset seek, when it happens. */
  function SeekPart(seek: bool, r: real, duration: real): seq<Command> {
    if seek then [SeekTo(r * duration)] else []
  }

  /** The number of seeks in a command log. */
  function SeekCount(cs: seq<Command>): nat {
    if cs == [] then 0 else SeekCount(cs[..|cs| - 1]) + (if cs[|cs| - 1].SeekTo? then 1 else 0)
  }

  lemma SeekCountAppend(cs: seq<Command>, more: seq<Command>)
    ensures SeekCount(cs + more) == SeekCount(cs) + SeekCount(more)
    decreases |more|
  {
    if more != [] {
      var n := |more| - 1;
      assert (cs + more)[..|cs + more| - 1] == cs + more[..n];
      SeekCountAppend(cs, more[..n]);
    } else {
      assert cs + more == cs;
    }
  }

  /** The play/pause effect seeks now: playing, loaded with a known length, not seeked before. */
  predicate SeeksOnSync(st: PlayerStatus, isPlaying: bool, initialized: bool) {
    isPlaying && CanSeek(st.isLoaded, initialized, st.duration)
  }

  /**
   * The play/pause effect of ChannelAudio on one player: loop on, the transport
   * call if the player is not already in the wanted state, then the seek.
   */
  function ChannelTransport(st: PlayerStatus, isPlaying: bool, initialized: bool, r: real): PlayerStatus {
    st.(loop := true, playing := isPlaying,
        commands := st.commands + AsList(TransportCommand(isPlaying, st.playing))
                    + SeekPart(SeeksOnSync(st, isPlaying, initialized), r, st.duration))
  }

  /** The same effect in the older hook, which sets loop only while playing. */
  function LegacyTransport(st: PlayerStatus, isPlaying: bool, initialized: bool, r: real): PlayerStatus {
    ChannelTransport(st, isPlaying, initialized, r).(loop := isPlaying || st.loop)
  }

  /** One firing of the offset poll on one player. */
  function PollSeek(st: PlayerStatus, initialized: bool, r: real): PlayerStatus {
    st.(commands := st.commands + SeekPart(CanSeek(st.isLoaded, initialized, st.duration), r, st.duration))
  }

  /**
   * The play/pause effect reconciles: afterwards the player is in the wanted
   * state, it adds a seek exactly when it sets the offset flag, and running it
   * again with the updated flag issues no further command.
   */
  lemma TransportReconciles(st: PlayerStatus, isPlaying: bool, initialized: bool, r: real, r2: real)
    ensures var n := ChannelTransport(st, isPlaying, initialized, r);
      && n.playing == isPlaying && n.loop
      && SeekCount(n.commands) == SeekCount(st.commands) + (if SeeksOnSync(st, isPlaying, initialized) then 1 else 0)
      && ChannelTransport(n, isPlaying, initialized || SeeksOnSync(st, isPlaying, initialized), r2).commands == n.commands
    ensures var n := LegacyTransport(st, isPlaying, initialized, r);
      && n.playing == isPlaying && n.commands == ChannelTransport(st, isPlaying, initialized, r).commands
      && LegacyTransport(n, isPlaying, initialized || SeeksOnSync(st, isPlaying, initialized), r2).commands == n.commands
  {
    var n := ChannelTransport(st, isPlaying, initialized, r);
    var t := AsList(TransportCommand(isPlaying, st.playing));
    var sk := SeekPart(SeeksOnSync(st, isPlaying, initialized), r, st.duration);
    assert SeekCount(t) == 0;
    assert SeekCount(sk) == (if SeeksOnSync(st, isPlaying, initialized) then 1 else 0);
    SeekCountAppend(st.commands, t);
    SeekCountAppend(st.commands + t, sk);
    assert n.commands + [] + [] == n.commands;
  }

  /** The poll seeks at most once: it adds a seek exactly when the flag is not yet set. */
  lemma PollSeeksOnce(st: PlayerStatus, initialized: bool, r: real)
    ensures SeekCount(PollSeek(st, initialized, r).commands)
            == SeekCount(st.commands) + (if CanSeek(st.isLoaded, initialized, st.duration) then 1 else 0)
    ensures initialized ==> PollSeek(st, initialized, r) == st
  {
    var sk := SeekPart(CanSeek(st.isLoaded, initialized, st.duration), r, st.duration);
    assert SeekCount(sk) == (if CanSeek(st.isLoaded, initialized, st.duration) then 1 else 0);
    SeekCountAppend(st.commands, sk);
    assert st.commands + [] == st.commands;
  }

  // ---------------------------------------------------------------------------
  // ChannelAudio
  // ---------------------------------------------------------------------------

  /** An auto-variation ramp in flight: its start, its target and the steps written so far. */
  datatype Ramp = Ramp(from: real, target: real, step: nat)

  /** A running ramp has steps left and a target level; a running variation has a drawn period. */
  predicate TimersWellFormed(variationActive: bool, variationPeriod: real, ramp: Option<Ramp>) {
    && (ramp.Some? ==> ramp.value.step < RampSteps && IsLevel(ramp.value.target))
    && (variationActive ==> 8000.0 <= variationPeriod < 16000.0)
  }

  /** The per-channel component: one player, the offset flag and the auto-variation timers. */
  class ChannelAudio {
    const channelId: string
    const player: Player
    /** Player source, picked once at mount. */
    const source: string

    /** `initializedOffset.current`. */
    var initializedOffset: bool
    /** The 500 ms offset poll is scheduled. */
    var offsetPollActive: bool
    /** The variation interval is scheduled, with its period in ms. */
    var variationActive: bool
    var variationPeriod: real
    /** The ramp interval, if one is scheduled. */
    var ramp: Option<Ramp>

    /** The seek happens at most once: the log holds one seek iff the flag is set. */
    ghost predicate Valid()
      reads this, player
    {
      && SeekCount(player.commands) == (if initializedOffset then 1 else 0)
      && TimersWellFormed(variationActive, variationPeriod, ramp)
    }

    /** Mount: a fresh player on a source picked from the registry entry's list. */
    constructor (id: string, r: real)
      requires id in AudioConfig.Registry() && 0.0 <= r < 1.0
      ensures Valid() && fresh(player)
      ensures channelId == id && source in AudioConfig.Registry()[id].sources
      ensures !initializedOffset && !offsetPollActive && !variationActive && ramp.None?
    {
      channelId := id;
      source := AudioConfig.PickRandom(AudioConfig.Registry()[id].sources, r);
      player := new Player();
      initializedOffset, offsetPollActive, variationActive := false, false, false;
      variationPeriod := 0.0;
      ramp := None;
    }

    /**
     * Effect 1 (on isPlaying, isLoaded, duration): loop on, play or pause only if
     * the player is not already in that state, and the random seek once the
     * player is loaded while playing.
     */
    method SyncTransport(isPlaying: bool, r: real)
      requires Valid() && 0.0 <= r < 1.0
      modifies this, player
      ensures Valid()
      ensures player.Status() == ChannelTransport(old(player.Status()), isPlaying, old(initializedOffset), r)
      ensures initializedOffset == (old(initializedOffset) || SeeksOnSync(old(player.Status()), isPlaying, old(initializedOffset)))
      ensures offsetPollActive == old(offsetPollActive) && variationActive == old(variationActive)
      ensures variationPeriod == old(variationPeriod) && ramp == old(ramp)
    {
      ghost var st := player.Status();
      ghost var n := ChannelTransport(st, isPlaying, initializedOffset, r);
      ghost var t := AsList(TransportCommand(isPlaying, st.playing));
      TransportReconciles(st, isPlaying, initializedOffset, r, r);
      player.loop := true;
      if isPlaying && !player.playing {
        player.Play();
      } else if !isPlaying && player.playing {
        player.Pause();
      }
      assert player.Status() == st.(loop := true, playing := isPlaying, commands := st.commands + t);
      if isPlaying && player.isLoaded && !initializedOffset && player.duration > 0.0 {
        var target := OffsetTarget(r, player.duration);
        assert [SeekTo(target)] == SeekPart(true, r, st.duration);
        player.Seek(target);
        initializedOffset := true;
      } else {
        assert st.commands + t == st.commands + t + SeekPart(false, r, st.duration);
      }
      assert player.Status() == n;
      assert SeekCount(player.commands) == (if initializedOffset then 1 else 0);
    }

    /** Effect 2 (on isPlaying): the 500 ms poll is scheduled only while playing and not yet seeked. */
    method StartOffsetPoll(isPlaying: bool)
      requires Valid()
      modifies this
      ensures Valid()
      ensures offsetPollActive == (isPlaying && !initializedOffset)
      ensures initializedOffset == old(initializedOffset)
      ensures variationActive == old(variationActive) && variationPeriod == old(variationPeriod)
      ensures ramp == old(ramp)
    {
      offsetPollActive := isPlaying && !initializedOffset;
    }

    /** One firing of the 500 ms poll. */
    method OffsetPollTick(r: real)
      requires Valid() && 0.0 <= r < 1.0
      modifies this, player
      ensures Valid()
      ensures player.Status() == if old(offsetPollActive) then PollSeek(old(player.Status()), old(initializedOffset), r)
                                 else old(player.Status())
      ensures initializedOffset
              == (old(initializedOffset) || (offsetPollActive && CanSeek(player.isLoaded, old(initializedOffset), player.duration)))
      ensures offsetPollActive == old(offsetPollActive) && variationActive == old(variationActive)
      ensures variationPeriod == old(variationPeriod) && ramp == old(ramp)
    {
      ghost var st := player.Status();
      ghost var init0 := initializedOffset;
      PollSeeksOnce(st, init0, r);
      if offsetPollActive && player.isLoaded && !initializedOffset && player.duration > 0.0 {
        var target := OffsetTarget(r, player.duration);
        assert SeekPart(true, r, st.duration) == [SeekTo(target)];
        player.Seek(target);
        initializedOffset := true;
        assert player.Status() == PollSeek(st, init0, r);
      } else if offsetPollActive {
        assert SeekPart(false, r, st.duration) == [] && st.commands + [] == st.commands;
        assert PollSeek(st, init0, r) == st;
      }
    }

    /** Effect "sync manual volume changes": push the effective volume to the player. */
    method SyncVolume(c: ChannelState, fadeMultiplier: real)
      requires Valid()
      modifies player
      ensures Valid()
      ensures player.Status() == old(player.Status()).(volume := EffectiveVolume(c, fadeMultiplier))
    {
      player.volume := EffectiveVolume(c, fadeMultiplier);
    }

    /** The guard of the auto-variation effect. */
    static predicate VariationWanted(c: ChannelState, isPlaying: bool) {
      c.autoVariationEnabled && !c.isMuted && isPlaying
    }

    /** `triggerVariation`: read the stored volume and schedule a ramp toward the clamped target. */
    method TriggerVariation(store: Store, deltaRoll: real)
      requires Valid() && channelId in store.channels && 0.0 <= deltaRoll < 1.0
      modifies this
      ensures Valid()
      ensures ramp == Some(Ramp(store.channels[channelId].volume,
                                VariationTarget(store.channels[channelId].volume, deltaRoll), 0))
      ensures initializedOffset == old(initializedOffset) && offsetPollActive == old(offsetPollActive)
      ensures variationActive == old(variationActive) && variationPeriod == old(variationPeriod)
    {
      var currentVol := store.channels[channelId].volume;
      ramp := Some(Ramp(currentVol, VariationTarget(currentVol, deltaRoll), 0));
    }

    /**
     * Effect 3 (on isPlaying, autoVariationEnabled, isMuted): the cleanup cancels
     * both timers; if the guard holds, the period is drawn once and the first
     * variation starts at once.
     */
    method RestartVariation(store: Store, isPlaying: bool, periodRoll: real, deltaRoll: real)
      requires Valid() && channelId in store.channels
      requires 0.0 <= periodRoll < 1.0 && 0.0 <= deltaRoll < 1.0
      modifies this
      ensures Valid()
      ensures variationActive == VariationWanted(store.channels[channelId], isPlaying)
      ensures variationActive ==> variationPeriod == VariationPeriod(periodRoll)
      ensures variationActive ==> ramp == Some(Ramp(store.channels[channelId].volume,
                                                    VariationTarget(store.channels[channelId].volume, deltaRoll), 0))
      ensures !variationActive ==> ramp.None?
      ensures initializedOffset == old(initializedOffset) && offsetPollActive == old(offsetPollActive)
    {
      variationActive := false;
      ramp := None;
      if VariationWanted(store.channels[channelId], isPlaying) {
        variationActive := true;
        variationPeriod := VariationPeriod(periodRoll);
        TriggerVariation(store, deltaRoll);
      }
    }

    /** One firing of the variation interval: a new cycle, on the same period. */
    method VariationTick(store: Store, deltaRoll: real)
      requires Valid() && channelId in store.channels && 0.0 <= deltaRoll < 1.0
      modifies this
      ensures Valid()
      ensures old(variationActive) ==> ramp == Some(Ramp(store.channels[channelId].volume,
                                                        VariationTarget(store.channels[channelId].volume, deltaRoll), 0))
      ensures !old(variationActive) ==> ramp == old(ramp)
      ensures variationActive == old(variationActive) && variationPeriod == old(variationPeriod)
      ensures initializedOffset == old(initializedOffset) && offsetPollActive == old(offsetPollActive)
    {
      if variationActive {
        TriggerVariation(store, deltaRoll);
      }
    }

    /**
     * One firing of the 100 ms ramp interval: write the next ramp value through
     * the auto-variation setter; after the 30th write the ramp stops.
     */
    method RampTick(store: Store)
      requires Valid() && channelId in store.channels
      modifies this, store
      ensures Valid()
      ensures old(ramp).None? ==> ramp.None? && store.Snapshot() == old(store.Snapshot())
      ensures old(ramp).Some? ==>
        var k := old(ramp).value.step + 1;
        && store.Snapshot() == AutoChannelVolumeSet(old(store.Snapshot()), channelId,
                                                     RampValue(old(ramp).value.from, old(ramp).value.target, k))
        && ramp == (if k >= RampSteps then None else Some(old(ramp).value.(step := k)))
      ensures initializedOffset == old(initializedOffset) && offsetPollActive == old(offsetPollActive)
      ensures variationActive == old(variationActive) && variationPeriod == old(variationPeriod)
    {
      if ramp.Some? {
        var rp := ramp.value;
        var step := rp.step + 1;
        store.SetAutoChannelVolume(channelId, RampValue(rp.from, rp.target, step));
        ramp := if step >= RampSteps then None else Some(rp.(step := step));
      }
    }

    /** Unmount (or a guard change's cleanup): both auto-variation timers are cancelled, nothing is written. */
    method StopVariation()
      requires Valid()
      modifies this
      ensures Valid() && !variationActive && ramp.None?
      ensures initializedOffset == old(initializedOffset) && offsetPollActive == old(offsetPollActive)
    {
      variationActive := false;
      ramp := None;
    }
  }

  // ---------------------------------------------------------------------------
  // The fade multiplier
  // ---------------------------------------------------------------------------

  /** Which fade interval is scheduled. */
  datatype FadePhase = Idle | FadingIn | FadingOut

  /** Fade-in adds 1/28 per 250 ms (7000 / 250 steps) and stops at exactly 1. */
  function FadeInStep(m: real): (n: real)
    ensures IsLevel(m) ==> IsLevel(n) && m <= n
  {
    if m + 1.0 / 28.0 >= 1.0 then 1.0 else m + 1.0 / 28.0
  }

  /** Fade-out subtracts 0.1 per 100 ms and stops at exactly 0. */
  function FadeOutStep(m: real): (n: real)
    ensures IsLevel(m) ==> IsLevel(n) && n <= m
  {
    if m - 0.1 <= 0.0 then 0.0 else m - 0.1
  }

  function FadeInAfter(m: real, k: nat): real {
    if k == 0 then m else FadeInStep(FadeInAfter(m, k - 1))
  }

  function FadeOutAfter(m: real, k: nat): real {
    if k == 0 then m else FadeOutStep(FadeOutAfter(m, k - 1))
  }

  /** From silence, the k-th fade-in tick (k <= 28) sets the multiplier to k/28: it reaches 1 at the 28th. */
  lemma {:induction false} FadeInFromSilence(k: nat)
    requires k <= 28
    ensures FadeInAfter(0.0, k) == (k as real) / 28.0
  {
    if k > 0 {
      FadeInFromSilence(k - 1);
    }
  }

  /** From full volume, the k-th fade-out tick (k <= 10) sets the multiplier to 1 - k/10: it reaches 0 at the 10th. */
  lemma {:induction false} FadeOutFromFull(k: nat)
    requires k <= 10
    ensures FadeOutAfter(1.0, k) == 1.0 - (k as real) / 10.0
  {
    if k > 0 {
      FadeOutFromFull(k - 1);
    }
  }

  /** The multiplier shared by every channel, stepped by the fade intervals. */
  class FadeController {
    var multiplier: real
    var phase: FadePhase

    ghost predicate Valid()
      reads this
    {
      IsLevel(multiplier) && (phase == FadingOut ==> multiplier > 0.0)
    }

    constructor ()
      ensures Valid() && multiplier == 0.0 && phase == Idle
    {
      multiplier, phase := 0.0, Idle;
    }

    /**
     * The fade effect (on isPlaying): cancel the running interval, then fade in
     * from the current multiplier when playing, or fade out if it is above 0.
     */
    method OnPlayingChanged(isPlaying: bool)
      requires Valid()
      modifies this
      ensures Valid() && multiplier == old(multiplier)
      ensures phase == (if isPlaying then FadingIn else if multiplier > 0.0 then FadingOut else Idle)
    {
      if isPlaying {
        phase := FadingIn;
      } else if multiplier > 0.0 {
        phase := FadingOut;
      } else {
        phase := Idle;
      }
    }

    /** One firing of whichever fade interval is scheduled. */
    method Tick()
      requires Valid()
      modifies this
      ensures Valid()
      ensures old(phase) == Idle ==> multiplier == old(multiplier) && phase == Idle
      ensures old(phase) == FadingIn ==>
        multiplier == FadeInStep(old(multiplier)) && phase == (if multiplier == 1.0 then Idle else FadingIn)
      ensures old(phase) == FadingOut ==>
        multiplier == FadeOutStep(old(multiplier)) && phase == (if multiplier == 0.0 then Idle else FadingOut)
    {
      if phase == FadingIn {
        var next := multiplier + 1.0 / 28.0;
        if next >= 1.0 {
          multiplier, phase := 1.0, Idle;
        } else {
          multiplier := next;
        }
      } else if phase == FadingOut {
        var next := multiplier - 0.1;
        if next <= 0.0 {
          multiplier, phase := 0.0, Idle;
        } else {
          multiplier := next;
        }
      }
    }
  }

  // ---------------------------------------------------------------------------
  // The end-of-session timer
  // ---------------------------------------------------------------------------

  /** The timer effect's guard: it polls only while playing with an end time. */
  function ArmedEnd(isPlaying: bool, timerEndTime: Option<int>): (a: Option<int>)
    ensures a.Some? <==> isPlaying && timerEndTime.Some?
    ensures a.Some? ==> a == timerEndTime
  {
    if isPlaying && timerEndTime.Some? then timerEndTime else None
  }

  /** The 1 s poll; `armedEnd` is the end time its closure captured, None when no poll is scheduled. */
  class SessionTimer {
    var armedEnd: Option<int>

    constructor ()
      ensures armedEnd.None?
    {
      armedEnd := None;
    }

    /** The timer effect (on isPlaying, timerEndTime). */
    method Sync(isPlaying: bool, timerEndTime: Option<int>)
      modifies this
      ensures armedEnd == ArmedEnd(isPlaying, timerEndTime)
    {
      armedEnd := if isPlaying && timerEndTime.Some? then timerEndTime else None;
    }

    /** One firing of the poll at time `now`: once the end time is reached, stop and then clear the timer. */
    method Tick(store: Store, now: int)
      modifies store
      ensures armedEnd.Some? && now >= armedEnd.value ==>
                store.Snapshot() == TimerSet(PlayPauseToggled(old(store.Snapshot())), None, now)
      ensures !(armedEnd.Some? && now >= armedEnd.value) ==> store.Snapshot() == old(store.Snapshot())
    {
      if armedEnd.Some? && now >= armedEnd.value {
        store.TogglePlayPause();
        store.SetTimer(None, now);
      }
    }
  }

  /**
   * When the poll was scheduled for the store's current state and the end time
   * has passed, a tick stops playback and clears both timer fields; once the
   * store is stopped or its timer cleared, the poll is not scheduled.
   */
  lemma TimerStopsPlayback(s: MixerState, now: int)
    requires ArmedEnd(s.isPlaying, s.timerEndTime).Some?
    requires now >= s.timerEndTime.value
    ensures var t := TimerSet(PlayPauseToggled(s), None, now);
      !t.isPlaying && t.timerEndTime.None? && t.timerDurationChosen.None? && !t.isZenMode
    ensures ArmedEnd(PlayPauseToggled(s).isPlaying, s.timerEndTime).None?
  {
  }

  /** A one-minute timer set while playing at time t0 fires at every poll from t0 + 60 s on. */
  lemma OneMinuteTimerFires(s: MixerState, t0: int, now: int)
    requires s.isPlaying && now >= t0 + 60000
    ensures var armed := TimerSet(s, Some(1), t0);
      ArmedEnd(armed.isPlaying, armed.timerEndTime) == Some(t0 + 60000)
      && now >= ArmedEnd(armed.isPlaying, armed.timerEndTime).value
  {
  }

  // ---------------------------------------------------------------------------
  // Mounting against the store's channel set
  // ---------------------------------------------------------------------------

  /**
   * As written, the engine mounts one ChannelAudio per audio-registry id and
   * each reads `channels[id]`, but the key set of the store's default
   * channels lacks six of those ids (the new ids of the audio registry), so
   * for these six the read finds no record.
   */
  lemma MountedChannelsMissingFromStore()
    ensures "plage" in AudioConfig.ChannelIds && "plage" !in ChannelConstants.InitialIds
    ensures "goelands" in AudioConfig.ChannelIds && "goelands" !in ChannelConstants.InitialIds
    ensures "cigales" in AudioConfig.ChannelIds && "cigales" !in ChannelConstants.InitialIds
    ensures "grillons" in AudioConfig.ChannelIds && "grillons" !in ChannelConstants.InitialIds
    ensures "voiture" in AudioConfig.ChannelIds && "voiture" !in ChannelConstants.InitialIds
    ensures "train" in AudioConfig.ChannelIds && "train" !in ChannelConstants.InitialIds
  {
  }

  /**
   * Corrected: over default channels keyed by the audio registry's ids, every
   * mounted channel has a record, so every ChannelAudio effect is defined, and
   * rehydration keeps that key set.
   */
  lemma AudioKeyedStoreCoversMountedChannels(registry: Channels, stored: MixerPersistence.StoredState)
    requires registry.Keys == AudioConfig.ChannelIds
    ensures var s := InitialState(registry, ChannelConstants.DefaultPresets());
      && (forall id :: id in AudioConfig.Registry() ==> id in s.channels)
      && (forall id :: id in AudioConfig.Registry() ==> id in MixerPersistence.MergeState(stored, s).channels)
  {
  }
}
