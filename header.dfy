/**
 * The header bar (src/components/Header.tsx): the timer button's duration
 * cycle and its premium gate, the local countdown, the "m:ss" rendering of
 * the time left, the timer label and the presets button's gate.
 */
module Header {
  import opened Wrappers
  import opened MixerTypes
  import opened MixerStore
  import opened Text

  // ---------------------------------------------------------------------------
  // The timer button
  // ---------------------------------------------------------------------------

  /** TIMER_DURATIONS: off, then 15, 30, 60 and 120 minutes. */
  const TimerDurations: seq<Option<int>> := [None, Some(15), Some(30), Some(60), Some(120)]

  /** `TIMER_DURATIONS.indexOf(d)`: the position of `d` in the list (its entries are distinct), or -1. */
  function DurationIndex(d: Option<int>): (i: int)
    ensures -1 <= i < |TimerDurations|
    ensures i >= 0 ==> TimerDurations[i] == d
    ensures i == -1 <==> d !in TimerDurations
  {
    if d == None then 0
    else if d == Some(15) then 1
    else if d == Some(30) then 2
    else if d == Some(60) then 3
    else if d == Some(120) then 4
    else -1
  }

  /** The duration after `d` in the cycle; a value not in the list restarts the cycle at "off". */
  function NextDuration(d: Option<int>): (n: Option<int>)
    ensures n in TimerDurations
  {
    TimerDurations[(DurationIndex(d) + 1) % |TimerDurations|]
  }

  /** The presses step off, 15, 30, 60, 120 and back to off. */
  lemma DurationSteps()
    ensures NextDuration(None) == Some(15) && NextDuration(Some(15)) == Some(30)
    ensures NextDuration(Some(30)) == Some(60) && NextDuration(Some(60)) == Some(120)
    ensures NextDuration(Some(120)) == None
  {
    assert TimerDurations[1] == Some(15) && TimerDurations[2] == Some(30) && TimerDurations[3] == Some(60);
    assert TimerDurations[4] == Some(120) && TimerDurations[0] == None;
    assert (0 + 1) % 5 == 1 && (1 + 1) % 5 == 2 && (2 + 1) % 5 == 3 && (3 + 1) % 5 == 4 && (4 + 1) % 5 == 0;
    assert DurationIndex(None) == 0 && DurationIndex(Some(15)) == 1 && DurationIndex(Some(30)) == 2;
    assert DurationIndex(Some(60)) == 3 && DurationIndex(Some(120)) == 4;
  }

  /** Five presses return to a listed choice; an unlisted stored choice restarts the cycle at off. */
  lemma DurationCycle(d: Option<int>)
    ensures d in TimerDurations ==> NextDuration(NextDuration(NextDuration(NextDuration(NextDuration(d))))) == d
    ensures d !in TimerDurations ==> NextDuration(d) == None
  {
    DurationSteps();
    if d in TimerDurations {
      assert d == None || d == Some(15) || d == Some(30) || d == Some(60) || d == Some(120);
    } else {
      assert DurationIndex(d) == -1 && (-1 + 1) % 5 == 0;
    }
  }

  /** `onTimerPress`: a free user gets the paywall; a premium user moves to the next duration. */
  function TimerPressed(s: MixerState, now: int): MixerState {
    if !s.isPremium then s.(isPaywallVisible := true)
    else TimerSet(s, NextDuration(s.timerDurationChosen), now)
  }

  /** Only the paywall flag changes for a free user; for a premium user only the two timer fields do. */
  lemma TimerPressGate(s: MixerState, now: int)
    ensures !s.isPremium ==> TimerPressed(s, now) == s.(isPaywallVisible := true)
    ensures s.isPremium ==>
      var t := TimerPressed(s, now);
      && t.timerDurationChosen in TimerDurations
      && t.timerDurationChosen == NextDuration(s.timerDurationChosen)
      && (t.timerDurationChosen.None? <==> t.timerEndTime.None?)
      && (t.timerDurationChosen.Some? ==> t.timerEndTime == Some(now + t.timerDurationChosen.value * 60000))
      && t.(timerDurationChosen := s.timerDurationChosen, timerEndTime := s.timerEndTime) == s
  {
  }

  method OnTimerPress(store: Store, now: int)
    modifies store
    ensures store.Snapshot() == TimerPressed(old(store.Snapshot()), now)
  {
    if !store.isPremium {
      store.SetPaywallVisible(true);
      return;
    }
    var currentIndex := DurationIndex(store.timerDurationChosen);
    var nextIndex := (currentIndex + 1) % |TimerDurations|;
    store.SetTimer(TimerDurations[nextIndex], now);
  }

  // ---------------------------------------------------------------------------
  // Countdown and label
  // ---------------------------------------------------------------------------

  /** Time left until `end`, or None once it is reached. */
  function Remaining(end: int, now: int): (r: Option<int>)
    ensures r.Some? <==> end > now
    ensures r.Some? ==> r.value > 0 && now + r.value == end
  {
    if end - now > 0 then Some(end - now) else None
  }

  /** The header's local countdown state and its 1 s interval. */
  class Countdown {
    var timeRemaining: Option<int>
    /** The end time the interval's closure captured, None when no interval runs. */
    var armedEnd: Option<int>

    ghost predicate Valid()
      reads this
    {
      timeRemaining.Some? ==> timeRemaining.value > 0
    }

    constructor ()
      ensures Valid() && timeRemaining.None? && armedEnd.None?
    {
      timeRemaining, armedEnd := None, None;
    }

    /** The countdown effect (on timerEndTime, isPlaying): a falsy end time or a pause clears it; otherwise an immediate check. */
    method Sync(timerEndTime: Option<int>, isPlaying: bool, now: int)
      requires Valid()
      modifies this
      ensures Valid()
      ensures armedEnd.Some? <==> IsTruthy(timerEndTime) && isPlaying
      ensures armedEnd.Some? ==> armedEnd == timerEndTime && timeRemaining == Remaining(timerEndTime.value, now)
      ensures armedEnd.None? ==> timeRemaining.None?
    {
      if !IsTruthy(timerEndTime) || !isPlaying {
        timeRemaining, armedEnd := None, None;
        return;
      }
      armedEnd := timerEndTime;
      var initialRemaining := timerEndTime.value - now;
      timeRemaining := if initialRemaining > 0 then Some(initialRemaining) else None;
    }

    /** One firing of the interval. */
    method Tick(now: int)
      requires Valid()
      modifies this
      ensures Valid() && armedEnd == old(armedEnd)
      ensures armedEnd.Some? ==> timeRemaining == Remaining(armedEnd.value, now)
      ensures armedEnd.None? ==> timeRemaining == old(timeRemaining)
    {
      if armedEnd.Some? {
        var remaining := armedEnd.value - now;
        timeRemaining := if remaining > 0 then Some(remaining) else None;
      }
    }
  }

  /** `padStart(2, "0")` of a number below 100. */
  function Pad2(n: nat): (s: string)
    requires n < 100
    ensures |s| == 2 && AllDigits(s) && DigitValue(s[0]) * 10 + DigitValue(s[1]) == n
    ensures n < 10 ==> s == "0" + NatToString(n)
    ensures n >= 10 ==> s == NatToString(n)
  {
    [DigitChar(n / 10), DigitChar(n % 10)]
  }

  /** `formatTime`: whole minutes, a colon and two-digit seconds of the whole seconds in `ms`. */
  function FormatTime(ms: nat): string {
    var totalSeconds := ms / 1000;
    NatToString(totalSeconds / 60) + ":" + Pad2(totalSeconds % 60)
  }

  /** Reading the label back gives the whole seconds left: minutes before the colon, two seconds digits after it. */
  lemma FormatTimeDecodes(ms: nat)
    ensures var r := FormatTime(ms);
      && |r| >= 4 && r[|r| - 3] == ':'
      && AllDigits(r[..|r| - 3]) && AllDigits(r[|r| - 2..])
      && DecimalValue(r[..|r| - 3]) * 60 + DigitValue(r[|r| - 2]) * 10 + DigitValue(r[|r| - 1]) == ms / 1000
      && DigitValue(r[|r| - 2]) < 6
  {
    var totalSeconds := ms / 1000;
    var m := NatToString(totalSeconds / 60);
    var p := Pad2(totalSeconds % 60);
    var r := FormatTime(ms);
    assert r == m + ":" + p;
    assert r[..|r| - 3] == m;
    assert r[|r| - 2..] == p;
    DecimalRoundTrip(totalSeconds / 60);
  }

  /** The timer button's text: the countdown when running, else "<n>m" for a truthy choice, else the translated word. */
  function TimerLabel(timeRemaining: Option<int>, timerDurationChosen: Option<int>, timerWord: string): (l: string)
    requires timeRemaining.Some? ==> timeRemaining.value > 0
  {
    if timeRemaining.Some? then FormatTime(timeRemaining.value)
    else if IsTruthy(timerDurationChosen) then IntToString(timerDurationChosen.value) + "m"
    else timerWord
  }

  /** A running countdown shows a colon and no "m"; a set but not running timer shows its minutes; 0 and off show the word. */
  lemma TimerLabelCases(timeRemaining: Option<int>, timerDurationChosen: Option<int>, timerWord: string)
    requires timeRemaining.Some? ==> timeRemaining.value > 0
    ensures var l := TimerLabel(timeRemaining, timerDurationChosen, timerWord);
      && (timeRemaining.Some? ==> ':' in l && DecimalValue(l[..|l| - 3]) == timeRemaining.value / 1000 / 60)
      && (timeRemaining.None? && timerDurationChosen.Some? && timerDurationChosen.value > 0 ==>
            l[..|l| - 1] == NatToString(timerDurationChosen.value) && l[|l| - 1] == 'm')
      && (timeRemaining.None? && !IsTruthy(timerDurationChosen) ==> l == timerWord)
  {
    if timeRemaining.Some? {
      FormatTimeDecodes(timeRemaining.value);
      var l := FormatTime(timeRemaining.value);
      assert l[|l| - 3] == ':';
      var totalSeconds := timeRemaining.value / 1000;
      assert l[..|l| - 3] == NatToString(totalSeconds / 60);
      DecimalRoundTrip(totalSeconds / 60);
    } else if IsTruthy(timerDurationChosen) && timerDurationChosen.value > 0 {
      var l := TimerLabel(timeRemaining, timerDurationChosen, timerWord);
      assert l == NatToString(timerDurationChosen.value) + "m";
    }
  }

  // ---------------------------------------------------------------------------
  // The presets button
  // ---------------------------------------------------------------------------

  /** A premium user opens the presets sheet; a free user gets the paywall. Returns the new state and whether the sheet opens. */
  function PresetsPressed(s: MixerState): (r: (MixerState, bool))
    ensures r.1 <==> s.isPremium
    ensures r.1 ==> r.0 == s
    ensures !r.1 ==> r.0 == s.(isPaywallVisible := true)
  {
    if s.isPremium then (s, true) else (s.(isPaywallVisible := true), false)
  }
}
