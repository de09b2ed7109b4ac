/**
 * The zen-mode inactivity controller of the root component (App.tsx): an
 * interaction brings the controls back and, while playing, schedules the
 * return to zen five seconds later; stopping playback cancels the pending
 * timeout and shows the controls. A timeout is a record in `pending` until
 * it fires or is cleared; the ref `inactivityTimeout` is `current`.
 */
module ZenMode {
  import opened Wrappers
  import opened MixerTypes
  import opened MixerStore

  /** The inactivity delay the root component hard-codes (milliseconds). */
  const InactivityDelay: int := 5000

  datatype Timeout = Timeout(id: nat, deadline: int)

  /** `resetZenTimer`'s effect on the store: leave zen if playing in zen, otherwise nothing. */
  function ZenReset(s: MixerState): MixerState {
    if s.isPlaying && s.isZenMode then s.(isZenMode := false) else s
  }

  /** The `isPlaying` effect's effect on the store: `resetZenTimer` when playing, leave zen when stopped. */
  function PlayingEffect(s: MixerState): MixerState {
    if s.isPlaying then ZenReset(s) else s.(isZenMode := false)
  }

  /** An interaction changes at most the zen flag, and leaves zen off whenever playback runs. */
  lemma InteractionShowsControls(s: MixerState)
    ensures ZenReset(s).(isZenMode := s.isZenMode) == s
    ensures s.isPlaying ==> !ZenReset(s).isZenMode
    ensures !s.isPlaying ==> ZenReset(s) == s
  {
  }

  /** After the `isPlaying` effect, in either direction, the controls are shown and nothing else changed. */
  lemma PlayingEffectShowsControls(s: MixerState)
    ensures PlayingEffect(s) == s.(isZenMode := false)
  {
  }

  /**
   * The store after a render: the `isPlaying` effect runs only when the flag
   * differs from the previous render's value.
   */
  function AfterRender(prev: MixerState, next: MixerState): (r: MixerState)
    ensures prev.isPlaying == next.isPlaying ==> r == next
    ensures prev.isPlaying != next.isPlaying ==> r == next.(isZenMode := false)
  {
    if prev.isPlaying != next.isPlaying then PlayingEffect(next) else next
  }

  /**
   * `randomizeMix` starts playback in zen. From a stopped state the
   * `isPlaying` effect that follows brings the controls straight back; from a
   * playing state the flag does not change, no effect runs and zen stays on.
   */
  lemma RandomizedMixShowsControls(s: MixerState, registry: Channels, r: real, order: seq<string>,
                                   rolls: seq<(real, real)>)
    requires RandomInputs(s.isPremium, registry, r, order, rolls)
    ensures MixRandomized(s, registry, r, order, rolls).isPlaying
    ensures MixRandomized(s, registry, r, order, rolls).isZenMode
    ensures !s.isPlaying ==> !AfterRender(s, MixRandomized(s, registry, r, order, rolls)).isZenMode
    ensures s.isPlaying ==> AfterRender(s, MixRandomized(s, registry, r, order, rolls)).isZenMode
  {
  }

  class Controller {
    /** `inactivityTimeout.current`: the id of the last scheduled timeout, if any. */
    var current: Option<nat>
    /** The scheduled timeouts that have neither fired nor been cleared. */
    var pending: seq<Timeout>
    /** The id the next `setTimeout` returns. */
    var nextId: nat

    /** At most one timeout is ever pending, and it is the one the ref holds. */
    ghost predicate Valid()
      reads this
    {
      && |pending| <= 1
      && (|pending| == 1 ==> current == Some(pending[0].id) && pending[0].id < nextId)
    }

    constructor ()
      ensures Valid() && current.None? && pending == []
    {
      current, pending, nextId := None, [], 0;
    }

    /** `if (inactivityTimeout.current) clearTimeout(inactivityTimeout.current)`. */
    method ClearCurrent()
      requires Valid()
      modifies this
      ensures Valid() && pending == [] && current == old(current) && nextId == old(nextId)
    {
      if current.Some? {
        if |pending| == 1 && pending[0].id == current.value {
          pending := [];
        }
      }
    }

    /** `setTimeout(() => setIsZenMode(true), 5000)`, stored in the ref. */
    method Schedule(now: int)
      requires Valid() && pending == []
      modifies this
      ensures Valid()
      ensures pending == [Timeout(old(nextId), now + InactivityDelay)] && current == Some(old(nextId))
      ensures nextId == old(nextId) + 1
    {
      current := Some(nextId);
      pending := [Timeout(nextId, now + InactivityDelay)];
      nextId := nextId + 1;
    }

    /** `resetZenTimer`, run by a tap or a pan anywhere on the screen at time `now`. */
    method ResetZenTimer(store: Store, now: int)
      requires Valid()
      modifies this, store
      ensures Valid()
      ensures store.Snapshot() == ZenReset(old(store.Snapshot()))
      ensures old(store.isPlaying) ==> pending == [Timeout(old(nextId), now + InactivityDelay)]
      ensures !old(store.isPlaying) ==> pending == []
    {
      ClearCurrent();
      if store.isPlaying && store.isZenMode {
        store.SetIsZenMode(false);
      }
      if store.isPlaying {
        Schedule(now);
      }
    }

    /** The `isPlaying` effect: the previous run's cleanup clears the timeout, then the new run reacts. */
    method PlayingChanged(store: Store, now: int)
      requires Valid()
      modifies this, store
      ensures Valid()
      ensures store.Snapshot() == PlayingEffect(old(store.Snapshot()))
      ensures old(store.isPlaying) ==> pending == [Timeout(old(nextId), now + InactivityDelay)]
      ensures !old(store.isPlaying) ==> pending == []
    {
      ClearCurrent();
      if store.isPlaying {
        ResetZenTimer(store, now);
      } else {
        ClearCurrent();
        store.SetIsZenMode(false);
      }
    }

    /** The pending timeout fires at or after its deadline: zen turns on. */
    method Fire(store: Store, now: int)
      requires Valid() && |pending| == 1 && now >= pending[0].deadline
      modifies this, store
      ensures Valid() && pending == [] && current == old(current)
      ensures store.Snapshot() == old(store.Snapshot()).(isZenMode := true)
    {
      pending := [];
      store.SetIsZenMode(true);
    }

    /** Unmount: the effect's cleanup clears the pending timeout. */
    method Unmount()
      requires Valid()
      modifies this
      ensures Valid() && pending == []
    {
      ClearCurrent();
    }
  }
}
