/**
 * The binaural panel (src/components/BinauralPanel.tsx): the track
 * selectors with their premium lock, the on/off switch, the volume slider,
 * and the panel's slide and opacity targets. Animation curves, haptics and
 * colours are not modelled; an opacity or offset here is the target value
 * handed to `withTiming`.
 */
module BinauralPanel {
  import opened MixerTypes
  import opened MixerStore
  import BinauralConfig
  import BinauralEngine

  // ---------------------------------------------------------------------------
  // Track selectors
  // ---------------------------------------------------------------------------

  /** `isLocked`: a premium track shown to a free user. */
  predicate IsLocked(isPremium: bool, trackId: string)
    requires trackId in BinauralConfig.Tracks()
  {
    !isPremium && BinauralConfig.Tracks()[trackId].isPremium
  }

  /** Delta is never locked; a premium user sees no lock; a free user sees theta, alpha and beta locked. */
  lemma LockedTracks(isPremium: bool, trackId: string)
    requires trackId in BinauralConfig.Tracks()
    ensures IsLocked(isPremium, trackId) <==> !isPremium && trackId != "delta"
  {
  }

  /** `isActive` of a selector: it is the store's chosen track (whether or not the layer is on). */
  predicate IsSelected(activeBinauralTrack: string, trackId: string) {
    activeBinauralTrack == trackId
  }

  /** Among the four selectors exactly one is marked when the chosen track is a track id, none otherwise. */
  lemma OneSelectorMarked(activeBinauralTrack: string)
    ensures activeBinauralTrack in BinauralConfig.Tracks() ==>
      exists i :: 0 <= i < |BinauralEngine.TrackOrder| && IsSelected(activeBinauralTrack, BinauralEngine.TrackOrder[i])
    ensures forall i, j :: 0 <= i < j < |BinauralEngine.TrackOrder| ==>
      !(IsSelected(activeBinauralTrack, BinauralEngine.TrackOrder[i])
        && IsSelected(activeBinauralTrack, BinauralEngine.TrackOrder[j]))
    ensures activeBinauralTrack !in BinauralConfig.Tracks() ==>
      forall i :: 0 <= i < |BinauralEngine.TrackOrder| ==> !IsSelected(activeBinauralTrack, BinauralEngine.TrackOrder[i])
  {
    BinauralEngine.TrackOrderCoversRegistry();
    if activeBinauralTrack in BinauralConfig.Tracks() {
      var i :| 0 <= i < |BinauralEngine.TrackOrder| && BinauralEngine.TrackOrder[i] == activeBinauralTrack;
      assert IsSelected(activeBinauralTrack, BinauralEngine.TrackOrder[i]);
    }
  }

  /** `handleTrackPress`: a locked track opens the paywall; any other becomes the chosen track. */
  function TrackPressed(s: MixerState, trackId: string): MixerState
    requires trackId in BinauralConfig.Tracks()
  {
    if BinauralConfig.Tracks()[trackId].isPremium && !s.isPremium then s.(isPaywallVisible := true)
    else s.(activeBinauralTrack := trackId)
  }

  /**
   * A press on a locked track shows the paywall and keeps the chosen track;
   * a press on any other track chooses it and changes nothing else. Either
   * way the chosen track stays a track id if it was one.
   */
  lemma TrackPressGate(s: MixerState, trackId: string)
    requires trackId in BinauralConfig.Tracks()
    ensures var t := TrackPressed(s, trackId);
      && (IsLocked(s.isPremium, trackId) ==> t == s.(isPaywallVisible := true))
      && (!IsLocked(s.isPremium, trackId) ==>
            t.activeBinauralTrack == trackId && t.(activeBinauralTrack := s.activeBinauralTrack) == s)
      && (s.activeBinauralTrack in BinauralConfig.Tracks() ==> t.activeBinauralTrack in BinauralConfig.Tracks())
      && t.isBinauralActive == s.isBinauralActive && t.binauralVolume == s.binauralVolume
  {
  }

  /** A free user can always choose delta, and a premium user any track. */
  lemma FreeTrackAlwaysSelectable(s: MixerState, trackId: string)
    requires trackId in BinauralConfig.Tracks()
    requires trackId == "delta" || s.isPremium
    ensures TrackPressed(s, trackId).activeBinauralTrack == trackId
  {
  }

  // ---------------------------------------------------------------------------
  // Opacity and slide targets
  // ---------------------------------------------------------------------------

  /** The selectors' and slider's opacity target: lit when on, faded almost out in zen, dimmed otherwise. */
  function ContentOpacity(isBinauralActive: bool, isZenMode: bool): real {
    if isZenMode && !isBinauralActive then 0.05
    else if isBinauralActive then 1.0
    else 0.4
  }

  /** The whole panel's opacity target: faded almost out only in zen while the layer is off. */
  function ContainerOpacity(isBinauralActive: bool, isZenMode: bool): real {
    if isZenMode && !isBinauralActive then 0.05 else 1.0
  }

  /** The length of both opacity animations: slow in zen, quick otherwise. */
  function OpacityDuration(isZenMode: bool): nat {
    if isZenMode then 7000 else 300
  }

  /**
   * Content is fully opaque iff the layer is on; the panel fades out iff zen
   * is on and the layer off; the content is never brighter than the panel,
   * and both targets lie in (0, 1].
   */
  lemma OpacityRules(isBinauralActive: bool, isZenMode: bool)
    ensures ContentOpacity(isBinauralActive, isZenMode) == 1.0 <==> isBinauralActive
    ensures ContainerOpacity(isBinauralActive, isZenMode) == 0.05 <==> isZenMode && !isBinauralActive
    ensures ContentOpacity(isBinauralActive, isZenMode) == 0.05 <==> isZenMode && !isBinauralActive
    ensures ContentOpacity(isBinauralActive, isZenMode) <= ContainerOpacity(isBinauralActive, isZenMode)
    ensures 0.0 < ContentOpacity(isBinauralActive, isZenMode) <= 1.0
    ensures 0.0 < ContainerOpacity(isBinauralActive, isZenMode) <= 1.0
  {
  }

  /** The panel's vertical offset target: in place when on, pushed below its content's height plus 16 otherwise. */
  function TranslateY(isBinauralActive: bool, contentHeight: real): real {
    if isBinauralActive then 0.0 else contentHeight + 16.0
  }

  /** The panel's measured content height (`contentHeight`, a shared value starting at 0). */
  class Panel {
    var contentHeight: real

    ghost predicate Valid()
      reads this
    {
      contentHeight >= 0.0
    }

    constructor ()
      ensures Valid() && contentHeight == 0.0
    {
      contentHeight := 0.0;
    }

    /** `handleContentLayout`: only a positive measured height is recorded. */
    method ContentLayout(height: real)
      requires Valid()
      modifies this
      ensures Valid()
      ensures contentHeight == if height > 0.0 then height else old(contentHeight)
    {
      if height > 0.0 {
        contentHeight := height;
      }
    }

    /** The offset target for the current layout. */
    function Offset(isBinauralActive: bool): (y: real)
      requires Valid()
      reads this
      ensures isBinauralActive ==> y == 0.0
      ensures !isBinauralActive ==> y >= 16.0 && y - 16.0 == contentHeight
    {
      TranslateY(isBinauralActive, contentHeight)
    }
  }

  // ---------------------------------------------------------------------------
  // Controls
  // ---------------------------------------------------------------------------

  /**
   * A press on a selector. The selector row takes no touches while the layer
   * is off (`pointerEvents="none"`), so a press then does nothing.
   */
  function SelectorPressed(s: MixerState, trackId: string): MixerState
    requires trackId in BinauralConfig.Tracks()
  {
    if s.isBinauralActive then TrackPressed(s, trackId) else s
  }

  /** A slider move, which also only reaches the store while the layer is on. */
  function SliderMoved(s: MixerState, value: real): MixerState {
    if s.isBinauralActive then s.(binauralVolume := value) else s
  }

  /** While the layer is off the selectors and slider change nothing; the slider keeps the volume a level. */
  lemma ControlsInertWhenOff(s: MixerState, trackId: string, value: real)
    requires trackId in BinauralConfig.Tracks()
    ensures !s.isBinauralActive ==> SelectorPressed(s, trackId) == s && SliderMoved(s, value) == s
    ensures s.isBinauralActive ==> SelectorPressed(s, trackId) == TrackPressed(s, trackId)
    ensures IsLevel(s.binauralVolume) && IsLevel(value) ==> IsLevel(SliderMoved(s, value).binauralVolume)
  {
  }

  method HandleTrackPress(store: Store, trackId: string)
    requires trackId in BinauralConfig.Tracks()
    modifies store
    ensures store.Snapshot() == SelectorPressed(old(store.Snapshot()), trackId)
  {
    if !store.isBinauralActive {
      return;
    }
    var trackConfig := BinauralConfig.Tracks()[trackId];
    if trackConfig.isPremium && !store.isPremium {
      store.SetPaywallVisible(true);
      return;
    }
    store.SetBinauralTrack(trackId);
  }

  /** The switch's `onValueChange`. */
  method SwitchToggled(store: Store)
    modifies store
    ensures store.Snapshot() == old(store.Snapshot()).(isBinauralActive := !old(store.isBinauralActive))
  {
    store.ToggleBinaural();
  }

  /** The slider's `onValueChange` (the native slider reports values in [0, 1]). */
  method SliderChanged(store: Store, value: real)
    modifies store
    ensures store.Snapshot() == SliderMoved(old(store.Snapshot()), value)
  {
    if store.isBinauralActive {
      store.SetBinauralVolume(value);
    }
  }
}
