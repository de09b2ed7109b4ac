# Evasion ambient mixer — a Dafny model

Evasion is a React Native app that mixes looping ambient sound channels
(birds, wind, beach, rain, thunder, city…) with an optional binaural-beat
layer. This project models its core in Dafny:

- **The mixer store** (`MixerStore`). It holds the play flag, the session timer, the channel records,
  the presets, the premium, paywall and zen flags, and the binaural settings.
  - Every action is a pure transition on `MixerState`.
  - The `Store` class's method for that action is proved to perform exactly that transition on its fields.
- **Persistence** (`MixerPersistence`, `RegistryMigration`). `partialize` chooses what is written to storage.
  `merge` lays a stored blob over the freshly created store and renames old channel ids on the way.
- **The playback engine** (`AudioEngine`): one `ChannelAudio` per audio-registry id, with these parts:
  - the play/pause effect and its one-time random seek;
  - the 500 ms offset poll;
  - the volume sync through the global fade multiplier;
  - the auto-variation ramps;
  - the fade-in/fade-out controller;
  - the end-of-session timer.
- **The older playback hook** (`LegacyAudioEngine`). It keeps nine players keyed by the original ids, and one
  effect there schedules every channel's auto-variation.
- **The binaural layer's player** (`BinauralEngine`) and **the binaural panel** (`BinauralPanel`).
  The panel has the premium-locked track selectors, the switch, the slider, and its opacity and offset targets.
- **The header** (`Header`): the timer button's duration cycle and premium gate, the local countdown,
  the `m:ss` rendering and the timer label.
- **The presets sheet** (`PresetsModal`): save-name validation, row colours and `hexToRgba`,
  and what tapping a row or its delete button does.
- **The zen-mode inactivity controller** of the root component (`ZenMode`).
- **Locale resolution** (`I18n`).
- **The constant tables**: `AudioConfig`, `BinauralConfig` and `ChannelConstants`.

Inputs the program reads from the environment are parameters of the model:
- `Math.random` draws, including the shuffle order;
- `Date.now`;
- the device locale list;
- the player's loaded state and duration.

Every `setInterval` and `setTimeout` callback is a tick method that the environment calls.

## Model

| member | source | states |
|---|---|---|
| AudioConfig.Registry | src/config/audio.ts:1-52 | the registry has exactly the twelve channel ids, each entry keyed by its own id with one source |
| AudioConfig.RenameTargetsAreRegistryIds | src/store/useMixerStore.ts:192-196 | plage, goelands and cigales are registry ids; mer, riviere and insectes are not |
| AudioConfig.RandomIndex | src/components/AudioEngine.tsx:8 | `floor(r * n)` for r in [0, 1) and n > 0 is a valid index |
| AudioConfig.PickRandom | src/components/AudioEngine.tsx:7-9 | the picked element is a member of the list |
| AudioConfig.PickRandomAlwaysInRange | src/components/AudioEngine.tsx:19-22 | for every registry id and roll, the pick is the entry's single source |
| AudioEngine.Player.constructor | src/components/AudioEngine.tsx:23 | a new player is not playing, not looping, at volume 1, not loaded, with no commands |
| AudioEngine.Player.Play | src/components/AudioEngine.tsx:33 | play sets playing and logs one Play command |
| AudioEngine.Player.Pause | src/components/AudioEngine.tsx:47 | pause clears playing and logs one Pause command |
| AudioEngine.Player.Seek | src/components/AudioEngine.tsx:42 | seekTo logs one seek to that position |
| AudioEngine.TransportCommand | src/components/AudioEngine.tsx:31-49 | a command is issued iff the wanted state differs from the player's; it is Play when starting and Pause when stopping |
| AudioEngine.EffectiveVolume | src/components/AudioEngine.tsx:73-76 | muted or a zero multiplier gives 0; a full multiplier gives the channel volume; for levels the result lies between 0 and the channel volume |
| AudioEngine.CanSeek | src/components/AudioEngine.tsx:37-41 | definition of the seek guard: loaded, not yet seeked and a positive duration; PollSeeksOnce and TransportReconciles state when it lets a seek through |
| AudioEngine.OffsetTarget | src/components/AudioEngine.tsx:42 | the random offset lies in [0, duration) |
| AudioEngine.Clamp | src/components/AudioEngine.tsx:92-93 | an input below 0 gives 0, one above 1 gives 1, and a level is kept, so the result is always a level |
| AudioEngine.VariationTarget | src/components/AudioEngine.tsx:89-93 | the target is the current volume plus a delta in [-0.25, 0.25): that sum when it is a level, 0 when it is below 0 and 1 when it is above 1; for a level current volume it lies within 0.25 of it |
| AudioEngine.VariationPeriod | src/components/AudioEngine.tsx:110-113 | the variation period lies in [8000, 16000) ms |
| AudioEngine.RampValue | src/components/AudioEngine.tsx:95-101 | definition of the value written at step k, the start plus k thirtieths of the distance; RampStaysBetween and RampMonotone state its bounds and direction |
| AudioEngine.RampStaysBetween | src/components/AudioEngine.tsx:95-101 | every ramp write lies between start and target, and the 30th write is the target |
| AudioEngine.RampMonotone | src/components/AudioEngine.tsx:97-101 | successive ramp writes move monotonically toward the target |
| AudioEngine.SeekCount | src/components/AudioEngine.tsx:42 | definition of the number of seeks in a command log, the measure the once-only seek properties bound |
| AudioEngine.SeekCountAppend | src/components/AudioEngine.tsx:42 | the seeks of two joined logs are the sum of each log's seeks |
| AudioEngine.ChannelTransport | src/components/AudioEngine.tsx:28-50 | definition of the play/pause effect on one player: loop on, the wanted play state, a transport command only on a change, then one seek when playing and the seek guard holds; TransportReconciles states what it achieves |
| AudioEngine.LegacyTransport | src/hooks/useAudioEngine.ts:49-72 | definition of the older hook's effect: the same reconciliation, with loop set only while playing; ReconcilePlayer states it per player |
| AudioEngine.PollSeek | src/components/AudioEngine.tsx:56-65 | definition of one offset-poll firing: a seek to r · duration appended exactly when the seek guard holds; PollSeeksOnce states it |
| AudioEngine.TransportReconciles | src/components/AudioEngine.tsx:28-50 | after the play/pause effect the player is in the wanted state; it seeks exactly when it sets the offset flag; a second run sends nothing |
| AudioEngine.PollSeeksOnce | src/components/AudioEngine.tsx:56-65 | the poll adds a seek exactly when the flag is unset and the player is loaded with a positive duration |
| AudioEngine.ChannelAudio.constructor | src/components/AudioEngine.tsx:19-25 | a channel mounts with a fresh player on one of its sources, flag unset and no timers |
| AudioEngine.ChannelAudio.SyncTransport | src/components/AudioEngine.tsx:28-50 | the player's new status is the transport function of the old one; the log holds one seek iff the flag is set |
| AudioEngine.ChannelAudio.StartOffsetPoll | src/components/AudioEngine.tsx:53-70 | the poll is scheduled iff playing and not yet seeked |
| AudioEngine.ChannelAudio.OffsetPollTick | src/components/AudioEngine.tsx:56-65 | one poll firing seeks at most once in the player's lifetime |
| AudioEngine.ChannelAudio.SyncVolume | src/components/AudioEngine.tsx:73-76 | the player volume becomes the effective volume |
| AudioEngine.ChannelAudio.TriggerVariation | src/components/AudioEngine.tsx:88-108 | a ramp starts from the stored volume toward the clamped target, with no step written yet |
| AudioEngine.ChannelAudio.RestartVariation | src/components/AudioEngine.tsx:79-122 | both timers are cancelled; if the guard holds, the period is drawn and the first ramp starts |
| AudioEngine.ChannelAudio.VariationTick | src/components/AudioEngine.tsx:110-113 | a firing replaces the ramp with a new one from the current stored volume |
| AudioEngine.ChannelAudio.RampTick | src/components/AudioEngine.tsx:99-107 | each firing writes the next ramp value through the auto-variation setter; the ramp stops after 30 writes |
| AudioEngine.ChannelAudio.StopVariation | src/components/AudioEngine.tsx:118-121 | the cleanup cancels both timers and writes nothing |
| AudioEngine.FadeInStep | src/components/AudioEngine.tsx:143-156 | a fade-in step keeps a level and never decreases it |
| AudioEngine.FadeOutStep | src/components/AudioEngine.tsx:162-175 | a fade-out step keeps a level and never increases it |
| AudioEngine.FadeInAfter | src/components/AudioEngine.tsx:143-156 | definition of k fade-in ticks from a multiplier; FadeInFromSilence gives its closed form |
| AudioEngine.FadeOutAfter | src/components/AudioEngine.tsx:162-175 | definition of k fade-out ticks from a multiplier; FadeOutFromFull gives its closed form |
| AudioEngine.FadeInFromSilence | src/components/AudioEngine.tsx:140-157 | from 0, the k-th fade-in tick gives k/28; the 28th reaches 1 |
| AudioEngine.FadeOutFromFull | src/components/AudioEngine.tsx:158-178 | from 1, the k-th fade-out tick gives 1 - k/10; the 10th reaches 0 |
| AudioEngine.FadeController.constructor | src/components/AudioEngine.tsx:133 | the multiplier starts at 0 with no interval |
| AudioEngine.FadeController.OnPlayingChanged | src/components/AudioEngine.tsx:137-183 | playing schedules a fade-in; stopping schedules a fade-out only above 0 |
| AudioEngine.FadeController.Tick | src/components/AudioEngine.tsx:148-176 | a firing applies one step of the scheduled fade and cancels it on reaching the bound |
| AudioEngine.ArmedEnd | src/components/AudioEngine.tsx:195 | the timer polls iff playing with an end time |
| AudioEngine.SessionTimer.constructor | src/components/AudioEngine.tsx:193-207 | no poll is scheduled at mount |
| AudioEngine.SessionTimer.Sync | src/components/AudioEngine.tsx:193-207 | the captured end time is the armed end of the store's values |
| AudioEngine.SessionTimer.Tick | src/components/AudioEngine.tsx:196-201 | once the end time is reached, playback toggles off and the timer clears; before it nothing changes |
| AudioEngine.TimerStopsPlayback | src/components/AudioEngine.tsx:193-207 | past the end time a tick stops playback and clears both timer fields, after which no poll is armed |
| AudioEngine.OneMinuteTimerFires | src/store/useMixerStore.ts:61-65 | a one-minute timer set at t0 while playing fires at every poll from t0 + 60 s |
| AudioEngine.MountedChannelsMissingFromStore | src/components/AudioEngine.tsx:211-217 | as written, six mounted ids have no record in the store's default channels |
| AudioEngine.AudioKeyedStoreCoversMountedChannels | src/components/AudioEngine.tsx:211-217 | over registry-keyed channels every mounted id has a record, also after rehydration |
| BinauralConfig.Tracks | src/config/binauralAudio.ts:9-30 | four tracks keyed by their own ids; only delta is free |
| BinauralPanel.IsLocked | src/components/BinauralPanel.tsx:270 | definition: a premium track shown to a free user; LockedTracks states which tracks that is |
| BinauralEngine.TrackOrderCoversRegistry | src/components/BinauralAudioEngine.tsx:7 | the mounted track order lists each registry track exactly once |
| BinauralEngine.IsThisTrackActive | src/components/BinauralAudioEngine.tsx:20 | definition: the layer is on and this is the chosen track |
| BinauralEngine.TrackSync | src/components/BinauralAudioEngine.tsx:30-45 | definition of one track player after its effects: playing iff active, at the binaural volume when active and 0 otherwise, with a transport command only on a change; OnlyActiveTrackAudible states the layer-wide result |
| BinauralEngine.OnlyActiveTrackAudible | src/components/BinauralAudioEngine.tsx:20-45 | at most one track plays; one plays iff the layer is on with a known track; it plays at the binaural volume and the others at 0 |
| BinauralEngine.TrackSwitching | src/components/BinauralAudioEngine.tsx:20 | turning the layer off silences every track; choosing a track makes only that one active |
| BinauralEngine.Engine.constructor | src/components/BinauralAudioEngine.tsx:22-27 | four fresh, distinct, looping players that are not playing |
| BinauralEngine.Engine.SyncTrack | src/components/BinauralAudioEngine.tsx:30-45 | one track's player reaches the track-sync status |
| BinauralEngine.Engine.Sync | src/components/BinauralAudioEngine.tsx:50-57 | every track player reaches the track-sync status for the store's binaural fields |
| BinauralPanel.LockedTracks | src/components/BinauralPanel.tsx:270 | delta is never locked; premium sees no lock; free users see the other three locked |
| BinauralPanel.IsSelected | src/components/BinauralPanel.tsx:269 | definition: the selector is the store's chosen track; OneSelectorMarked states that at most one is |
| BinauralPanel.OneSelectorMarked | src/components/BinauralPanel.tsx:265-273 | exactly one selector is marked for a track id, none otherwise |
| BinauralPanel.TrackPressed | src/components/BinauralPanel.tsx:166-175 | definition of handleTrackPress: a premium track for a free user only shows the paywall, any other becomes the chosen track; TrackPressGate states it |
| BinauralPanel.TrackPressGate | src/components/BinauralPanel.tsx:166-175 | a locked press shows the paywall and keeps the track; otherwise the track is chosen and nothing else changes |
| BinauralPanel.FreeTrackAlwaysSelectable | src/components/BinauralPanel.tsx:166-175 | a free user can choose delta, and a premium user any track |
| BinauralPanel.ContentOpacity | src/components/BinauralPanel.tsx:193-204 | definition of the selectors' and slider's opacity target: 1 when on, 0.05 in zen while off, 0.4 otherwise; OpacityRules states its order and bounds |
| BinauralPanel.ContainerOpacity | src/components/BinauralPanel.tsx:206-216 | definition of the panel's opacity target: 0.05 in zen while off, 1 otherwise |
| BinauralPanel.OpacityDuration | src/components/BinauralPanel.tsx:200 | definition of both opacity animations' length: 7000 ms in zen, 300 ms otherwise |
| BinauralPanel.OpacityRules | src/components/BinauralPanel.tsx:193-216 | content is opaque iff on; the panel fades iff zen and off; content is never brighter than the panel; both lie in (0, 1] |
| BinauralPanel.TranslateY | src/components/BinauralPanel.tsx:179-191 | definition of the slide target: 0 when on, the content height plus 16 when off; Panel.Offset states it over the measured height |
| BinauralPanel.Panel.constructor | src/components/BinauralPanel.tsx:177 | the measured height starts at 0 |
| BinauralPanel.Panel.ContentLayout | src/components/BinauralPanel.tsx:218-223 | only a positive measured height is recorded |
| BinauralPanel.Panel.Offset | src/components/BinauralPanel.tsx:179-191 | the offset is 0 when on and height + 16 (at least 16) when off |
| BinauralPanel.SelectorPressed | src/components/BinauralPanel.tsx:263-273 | definition of a selector press: the track-press transition while on, nothing while off (pointerEvents "none"); ControlsInertWhenOff states it |
| BinauralPanel.SliderMoved | src/components/BinauralPanel.tsx:277-287 | definition of a slider move: sets the binaural volume while on, nothing while off (pointerEvents "none", disabled) |
| BinauralPanel.ControlsInertWhenOff | src/components/BinauralPanel.tsx:263-285 | with the layer off the selectors and slider change nothing; a slider value in [0, 1] stays a level |
| BinauralPanel.HandleTrackPress | src/components/BinauralPanel.tsx:166-175 | a selector press reaches the store as SelectorPressed: the track-press transition while the layer is on, nothing while it is off (the selector row's pointerEvents "none" at BinauralPanel.tsx lines 261-273) |
| BinauralPanel.SwitchToggled | src/components/BinauralPanel.tsx:242-245 | the switch flips the binaural flag |
| BinauralPanel.SliderChanged | src/components/BinauralPanel.tsx:285 | the slider sets the binaural volume while the layer is on |
| ChannelConstants.InitialChannels | src/constants/channels.ts:3-67 | the nine default channels, keyed by id, are muted at 0.5 without variation |
| ChannelConstants.Muted | src/constants/channels.ts:3-67 | definition of a default record: the id and label, volume 0.5, muted, no variation |
| ChannelConstants.Label | src/constants/channels.ts:3-67 | definition of each default channel's label |
| ChannelConstants.CalmPreset | src/constants/channels.ts:70-84 | foret, oiseaux and vent are unmuted at 0.6, 0.4 and 0.3; the other channels are the defaults |
| ChannelConstants.StormPreset | src/constants/channels.ts:85-99 | pluie, tonnerre and vent are unmuted at 0.7, 0.6 and 0.4; the other channels are the defaults |
| ChannelConstants.BuiltInIdsLackUserPrefix | src/constants/channels.ts:69-100 | built-in ids differ from each other and never look like generated user ids |
| ChannelConstants.DefaultPresets | src/constants/channels.ts:69-100 | two presets over the default channel key set |
| ChannelConstants.CalmVolumesAreLevels | src/constants/channels.ts:70-84 | every calm preset volume lies in [0, 1] |
| ChannelConstants.StormVolumesAreLevels | src/constants/channels.ts:85-99 | every storm preset volume lies in [0, 1] |
| Header.DurationIndex | src/components/Header.tsx:70 | indexOf gives the position of a listed duration, -1 otherwise |
| Header.NextDuration | src/components/Header.tsx:70-72 | the next choice is the listed successor, wrapping to off |
| Header.DurationSteps | src/components/Header.tsx:18 | presses step off, 15, 30, 60, 120 and back to off |
| Header.DurationCycle | src/components/Header.tsx:65-73 | five presses return to a listed choice; an unlisted choice restarts at off |
| Header.TimerPressed | src/components/Header.tsx:65-73 | definition of onTimerPress: the paywall for a free user, the next duration set through setTimer for a premium one; TimerPressGate states it |
| Header.TimerPressGate | src/components/Header.tsx:65-73 | a free user only gets the paywall; a premium user only changes the two timer fields, the end time being minutes after now |
| Header.OnTimerPress | src/components/Header.tsx:65-73 | the store performs the timer-press transition |
| Header.Remaining | src/components/Header.tsx:50-60 | time left is present iff the end is in the future, and then adds up to the end |
| Header.Countdown.constructor | src/components/Header.tsx:40 | no time left and no interval at mount |
| Header.Countdown.Sync | src/components/Header.tsx:43-63 | the interval is armed iff the end time is truthy and playing; the initial check sets the time left |
| Header.Countdown.Tick | src/components/Header.tsx:49-56 | a firing recomputes the time left from the captured end time |
| Header.Pad2 | src/components/Header.tsx:79 | two digits whose value is the number, zero-padded below 10 |
| Header.FormatTime | src/components/Header.tsx:75-80 | definition of formatTime: whole minutes, a colon and two-digit seconds; FormatTimeDecodes states that it reads back as the whole seconds left |
| Header.FormatTimeDecodes | src/components/Header.tsx:75-80 | minutes before the colon and two seconds digits below 60 decode to the whole seconds left |
| Header.TimerLabel | src/components/Header.tsx:114-118 | definition of the timer button text: the countdown, else "<n>m" for a truthy choice, else the word; TimerLabelCases states the three cases |
| Header.TimerLabelCases | src/components/Header.tsx:114-118 | the countdown shows m:ss; a set duration shows "<n>m"; off or 0 shows the word |
| Header.PresetsPressed | src/components/Header.tsx:140 | the sheet opens iff premium; otherwise only the paywall flag is set |
| I18n.ResolveLocale | src/i18n/index.tsx:16-27 | the result is always a supported language |
| I18n.FirstLanguageCode | src/i18n/index.tsx:19 | definition of `locales[0]?.languageCode ?? "en"`; OnlyFirstLocaleCounts states that later locales are never read |
| I18n.ResolveLocaleCases | src/i18n/index.tsx:16-27 | a supported non-English first locale is kept; anything else, an exception included, gives English |
| I18n.OnlyFirstLocaleCounts | src/i18n/index.tsx:19 | later locales never change the result |
| I18n.Translations | src/i18n/index.tsx:29-36 | one table per supported language |
| I18n.TranslationsDistinct | src/i18n/index.tsx:29-36 | different languages get different tables |
| I18n.ActiveTranslations | src/i18n/index.tsx:38-39 | the active table is English iff the resolved language is English |
| LegacyAudioEngine.LegacyIdsDistinct | src/hooks/useAudioEngine.ts:23-33 | the hook holds nine distinct ids |
| LegacyAudioEngine.LegacyIdsAreInitialIds | src/hooks/useAudioEngine.ts:23-33 | the hook's ids are exactly the store's default channel ids |
| LegacyAudioEngine.WantedIds | src/hooks/useAudioEngine.ts:124-128 | the started channels are the keys with auto on, unmuted, while playing, in key order |
| LegacyAudioEngine.WantedIdsDistinct | src/hooks/useAudioEngine.ts:124-163 | over distinct keys every channel gets at most one variation interval |
| LegacyAudioEngine.AutoConfig | src/hooks/useAudioEngine.ts:113-118 | the dependency lists each key's (auto, muted) pair |
| LegacyAudioEngine.AutoConfigIgnoresVolume | src/hooks/useAudioEngine.ts:112-118 | volume writes never change the dependency, so they never restart variations |
| LegacyAudioEngine.AutoConfigSeesMuteToggle | src/hooks/useAudioEngine.ts:113-118 | toggling a player's mute changes the dependency |
| LegacyAudioEngine.WantedIdsFollowAutoConfig | src/hooks/useAudioEngine.ts:113-128 | equal dependencies give the same started channels |
| LegacyAudioEngine.ReconcilePlayer | src/hooks/useAudioEngine.ts:49-72 | one player reaches the legacy transport status; it reports a seek exactly when it seeks |
| LegacyAudioEngine.PollPlayer | src/hooks/useAudioEngine.ts:79-90 | one player's poll reaches the poll status; it reports a seek exactly when the player can seek |
| LegacyAudioEngine.StartRamp | src/hooks/useAudioEngine.ts:129-139 | a ramp starts at the stored volume toward a level within 0.25 of it |
| LegacyAudioEngine.ScheduleNext | src/hooks/useAudioEngine.ts:124-163 | a wanted key adds one interval and one ramp; others add nothing |
| LegacyAudioEngine.Schedule | src/hooks/useAudioEngine.ts:120-164 | one interval and one ramp per wanted channel |
| LegacyAudioEngine.ScheduleFollowsWanted | src/hooks/useAudioEngine.ts:124-163 | the j-th wanted channel gets the j-th period and target draws, and no other channel gets any |
| LegacyAudioEngine.ScheduleStep | src/hooks/useAudioEngine.ts:124-163 | one more key extends the schedule by that key's intervals |
| LegacyAudioEngine.ScheduleWellFormed | src/hooks/useAudioEngine.ts:155-158 | periods lie in 8–16 s and ramps head toward levels |
| LegacyAudioEngine.ScheduleIds | src/hooks/useAudioEngine.ts:124-163 | the scheduled channels are exactly the wanted ones, each once |
| LegacyAudioEngine.ScheduleBounds | src/hooks/useAudioEngine.ts:155-158 | each scheduled period lies in 8–16 s and each first ramp starts at step 0 toward a level |
| LegacyAudioEngine.NewPlayers | src/hooks/useAudioEngine.ts:23-33 | n fresh, distinct players with no commands |
| LegacyAudioEngine.ReconcileAll | src/hooks/useAudioEngine.ts:48-73 | every player reaches its transport status and a flag is set exactly for each player that seeked |
| LegacyAudioEngine.PollAll | src/hooks/useAudioEngine.ts:79-90 | every player reaches its poll status with flags updated likewise |
| LegacyAudioEngine.ScheduleVariations | src/hooks/useAudioEngine.ts:124-164 | the loop schedules exactly the Schedule of the keys |
| LegacyAudioEngine.Engine.constructor | src/hooks/useAudioEngine.ts:23-35 | one fresh player and an unset flag per id, nothing scheduled |
| LegacyAudioEngine.Engine.SyncTransport | src/hooks/useAudioEngine.ts:47-97 | every player reconciled in key order; the poll is scheduled iff playing |
| LegacyAudioEngine.Engine.OffsetPollTick | src/hooks/useAudioEngine.ts:78-91 | a poll firing seeks each loaded player whose flag is unset |
| LegacyAudioEngine.Engine.SyncVolumes | src/hooks/useAudioEngine.ts:100-109 | each player's volume is its channel's, or 0 when muted, without fade |
| LegacyAudioEngine.Engine.RestartVariations | src/hooks/useAudioEngine.ts:120-170 | the previous run is cleared and the new schedule is the Schedule of the keys |
| LegacyAudioEngine.Engine.VariationTick | src/hooks/useAudioEngine.ts:129-153 | interval j starts a new ramp from the channel's current volume |
| LegacyAudioEngine.Engine.RampTick | src/hooks/useAudioEngine.ts:141-150 | ramp j writes its next value through the auto-variation setter and advances one step |
| LegacyAudioEngine.Engine.ClearVariations | src/hooks/useAudioEngine.ts:166-169 | every interval of the run is cleared and the store is untouched |
| MixerPersistence.PartializeIgnoresSessionFields | src/store/useMixerStore.ts:176-185 | play state, timer, paywall and zen flags never reach storage |
| MixerPersistence.Partialize | src/store/useMixerStore.ts:176-185 | definition of partialize: channels, presets, current preset, premium and the three binaural fields; PartializeIgnoresSessionFields and PersistRoundTrip state what it keeps |
| MixerPersistence.Rename | src/store/useMixerStore.ts:192-199 | every key other than mer, riviere and insectes maps to itself |
| MixerPersistence.Overlay | src/store/useMixerStore.ts:202-209 | definition of one stored record laid over a current one, with volume 0.5, muted and no variation for missing fields |
| MixerPersistence.MigrateEntry | src/store/useMixerStore.ts:199-210 | definition of one forEach turn: the renamed key is overwritten only if the current channels have it; UnknownKeysDropped states the other case |
| MixerPersistence.MigrateChannels | src/store/useMixerStore.ts:188-212 | the result has exactly the current key set, each record keeping its id and label |
| MixerPersistence.MigrateChannelsLoop | src/store/useMixerStore.ts:198-211 | the forEach loop computes MigrateChannels |
| MixerPersistence.MigratePreset | src/store/useMixerStore.ts:216-239 | definition of one migrated preset: its id and name with channels migrated from the current ones |
| MixerPersistence.MigratePresets | src/store/useMixerStore.ts:215-239 | one migrated preset per stored preset, in order, with ids and names kept |
| MixerPersistence.Merge | src/store/useMixerStore.ts:186-248 | the loops compute MergeState |
| MixerPersistence.MergeState | src/store/useMixerStore.ts:186-248 | definition of merge: migrated channels and presets, stored fields over current ones, premium only when stored; MergeKeepsSessionFields and PersistRoundTrip state its result |
| MixerPersistence.MergeKeepsSessionFields | src/store/useMixerStore.ts:241-247 | rehydration leaves play, timer, paywall and zen fields as the fresh store has them; premium holds only if stored as true |
| MixerPersistence.MergedPresetsHaveCurrentKeys | src/store/useMixerStore.ts:215-239 | every merged preset has the current channel key set |
| MixerPersistence.UnknownKeysDropped | src/store/useMixerStore.ts:199-201 | a stored key that renames to an unknown id changes nothing |
| MixerPersistence.RenamedBlobsMergeAlike | src/store/useMixerStore.ts:199 | a blob under an old id merges like the same values under the new id |
| MixerPersistence.EnumeratedPrefix | src/store/useMixerStore.ts:198-211 | when no current key renames onto another current key, merging a stored listing of channels gives each listed key the rename table keeps its stored record; every other key keeps its current record |
| MixerPersistence.NoRenameCollision | src/store/useMixerStore.ts:192-201 | definition: no current key is renamed onto another current key (true of the shipped default channels) |
| MixerPersistence.EnumeratedKey | src/store/useMixerStore.ts:198-211 | EnumeratedPrefix for one current key |
| MixerPersistence.MigrateEntryOfListed | src/store/useMixerStore.ts:199-210 | one forEach turn over a listed record sets that key to the record when the rename table keeps the key, and otherwise changes nothing |
| MixerPersistence.RenamedAwayKeysKeepBase | src/store/useMixerStore.ts:192-210 | a current key that the rename table renames is never written, so it keeps its current record |
| MixerPersistence.StoredChannelsRestored | src/store/useMixerStore.ts:176-211 | over rename-free keys, merging what partialize stored restores the channels in any key order |
| MixerPersistence.MergeChannelsIdempotent | src/store/useMixerStore.ts:186-212 | when no current key renames onto another current key (the shipped default channels included), storing a merge result and merging it again gives the same channels |
| MixerPersistence.PersistRoundTrip | src/store/useMixerStore.ts:176-248 | over a rename-free current key set (not the shipped default channels, which lose the old-id settings as Findings shows), persist-then-rehydrate restores every persisted field and keeps the fresh store's play flag; MergeKeepsSessionFields states the other session fields |
| RegistryMigration.ShippedChannelsLoseOldIdSettings | src/store/useMixerStore.ts:192-211 | as written, an unmuted mer at 0.9 comes back muted at 0.5 |
| RegistryMigration.ShippedKeysRenameSafe | src/store/useMixerStore.ts:192-201 | no shipped default key is renamed onto another shipped default key |
| RegistryMigration.ShippedMergeIdempotent | src/store/useMixerStore.ts:186-212 | on the shipped default channels, storing a merge result and merging it again gives the same channels |
| RegistryMigration.AudioIdsRenameFree | src/config/audio.ts:1-52 | the audio registry ids are rename-free |
| RegistryMigration.AudioKeyedChannelsRestoreSettings | src/store/useMixerStore.ts:192-211 | over registry-keyed channels a snapshot restores exactly and an old id carries its values to the new id |
| MixerStore.FindPresetIndex | src/store/useMixerStore.ts:145 | the first index carrying the id, or -1 iff none does |
| MixerStore.WithoutPreset | src/store/useMixerStore.ts:168 | the result holds exactly the presets whose id differs, and is never longer |
| MixerStore.WithoutPresetKeepsOrder | src/store/useMixerStore.ts:168 | filtering distributes over concatenation |
| MixerStore.WithoutAbsentPreset | src/store/useMixerStore.ts:168 | filtering an absent id changes nothing, so filtering is idempotent |
| MixerStore.InitialState | src/store/useMixerStore.ts:16-34 | definition of the initial value: stopped, no timer or preset, free, no paywall or zen, binaural off on delta at 0.5 |
| MixerStore.PlayPauseToggled | src/store/useMixerStore.ts:37-44 | definition of togglePlayPause: flips play and clears zen; PlayPauseTwice states its round trip |
| MixerStore.IsTruthy | src/store/useMixerStore.ts:64 | definition of a truthy duration: present and non-zero |
| MixerStore.TimerSet | src/store/useMixerStore.ts:61-65 | definition of setTimer; TimerEndTime states the end time and the unchanged fields |
| MixerStore.ChannelVolumeSet | src/store/useMixerStore.ts:101-108 | definition of setChannelVolume; ChannelEditsTouchOneChannel and ChannelActionsKeepLevels state its effect |
| MixerStore.AutoChannelVolumeSet | src/store/useMixerStore.ts:110-117 | definition of setAutoChannelVolume, which keeps the preset; ChannelEditsTouchOneChannel states it |
| MixerStore.ChannelMuteToggled | src/store/useMixerStore.ts:119-129 | definition of toggleChannelMute; ChannelEditsTouchOneChannel states it |
| MixerStore.ChannelAutoVariationToggled | src/store/useMixerStore.ts:131-141 | definition of toggleChannelAutoVariation; ChannelEditsTouchOneChannel states it |
| MixerStore.PresetLoaded | src/store/useMixerStore.ts:144-152 | definition of loadPreset; LoadUnknownPresetIsNoop and SaveThenLoadRestores state its cases |
| MixerStore.UserPresetId | src/store/useMixerStore.ts:156 | definition of the generated id, "preset_user_" and the decimal time; UserPresetIdsDiffer states that distinct times give distinct ids |
| MixerStore.UserPresetSaved | src/store/useMixerStore.ts:154-164 | definition of saveUserPreset; SaveThenLoadRestores states its effect |
| MixerStore.UserPresetDeleted | src/store/useMixerStore.ts:166-171 | definition of deleteUserPreset; DeletePreset states its effect |
| MixerStore.ActiveCount | src/store/useMixerStore.ts:76-79 | the count lies between min(2, n) and min(4, n) |
| MixerStore.EntitledIds | src/store/useMixerStore.ts:68-71 | definition of the ids randomizeMix draws from: all default ids when premium, oiseaux, vent and plage otherwise |
| MixerStore.Activated | src/store/useMixerStore.ts:84-89 | definition of the record written for a selected id; ActivatedBounds states its bounds |
| MixerStore.ActivateAll | src/store/useMixerStore.ts:83-90 | the key set is the registry's plus the selected ids |
| MixerStore.ActivateSelected | src/store/useMixerStore.ts:73-90 | the forEach loop computes ActivateAll |
| MixerStore.ActivateAllSelected | src/store/useMixerStore.ts:83-90 | the i-th selected id ends with its own roll's record |
| MixerStore.ActivateAllOther | src/store/useMixerStore.ts:73 | an unselected registry channel keeps its default |
| MixerStore.ActivatedBounds | src/store/useMixerStore.ts:84-89 | an activated record is unmuted at a volume in [0.3, 0.8) |
| MixerStore.ActivateAllShape | src/store/useMixerStore.ts:73-90 | over distinct ids each selected channel is activated and every other keeps its default |
| MixerStore.MixRandomized | src/store/useMixerStore.ts:67-98 | definition of randomizeMix for given draws; RandomizeMixShape states its result |
| MixerStore.RandomizeMixShape | src/store/useMixerStore.ts:67-98 | between min(2, n) and min(4, n) distinct entitled ids are unmuted at [0.3, 0.8); the rest keep defaults; playing in zen, detached from presets |
| MixerStore.Store.Assign | src/store/useMixerStore.ts:38 | `set` replaces every field with the new value |
| MixerStore.Store.constructor | src/store/useMixerStore.ts:16-34 | the initial value over the default channels and presets |
| MixerStore.Store.TogglePlayPause | src/store/useMixerStore.ts:37-44 | flips the play flag and clears zen |
| MixerStore.Store.SetIsPremium | src/store/useMixerStore.ts:46 | sets the premium flag only |
| MixerStore.Store.SetPaywallVisible | src/store/useMixerStore.ts:47-48 | sets the paywall flag only |
| MixerStore.Store.SetIsZenMode | src/store/useMixerStore.ts:50 | sets the zen flag only |
| MixerStore.Store.ToggleBinaural | src/store/useMixerStore.ts:53-54 | flips the binaural flag only |
| MixerStore.Store.SetBinauralTrack | src/store/useMixerStore.ts:56-57 | sets the track only |
| MixerStore.Store.SetBinauralVolume | src/store/useMixerStore.ts:59 | sets the binaural volume only |
| MixerStore.Store.SetTimer | src/store/useMixerStore.ts:61-65 | sets the chosen duration and its end time |
| MixerStore.Store.RandomizeMix | src/store/useMixerStore.ts:67-98 | performs the randomize transition for the given draws |
| MixerStore.Store.SetChannelVolume | src/store/useMixerStore.ts:101-108 | sets one channel's volume and detaches from the preset |
| MixerStore.Store.SetAutoChannelVolume | src/store/useMixerStore.ts:110-117 | sets one channel's volume and keeps the preset |
| MixerStore.Store.ToggleChannelMute | src/store/useMixerStore.ts:119-129 | flips one channel's mute and detaches |
| MixerStore.Store.ToggleChannelAutoVariation | src/store/useMixerStore.ts:131-141 | flips one channel's auto-variation and detaches |
| MixerStore.Store.LoadPreset | src/store/useMixerStore.ts:144-152 | loads the first preset with the id, or changes nothing |
| MixerStore.Store.SaveUserPreset | src/store/useMixerStore.ts:154-164 | appends a preset of the current channels and makes it current |
| MixerStore.Store.DeleteUserPreset | src/store/useMixerStore.ts:166-171 | removes the id's presets and clears current only if it was that id |
| MixerStore.Store.Rehydrate | src/store/useMixerStore.ts:186-248 | the store takes the merge of the stored blob with its current value |
| MixerStore.PlayPauseTwice | src/store/useMixerStore.ts:37-44 | toggling twice restores the play flag; zen is off either way |
| MixerStore.TimerEndTime | src/store/useMixerStore.ts:61-65 | a non-zero duration sets the end time to exactly now + minutes · 60000, after now when positive; null or 0 clears it; every field but the two timer fields is unchanged |
| MixerStore.ChannelEditsTouchOneChannel | src/store/useMixerStore.ts:101-141 | each edit changes one field of one channel; manual edits detach, the auto write keeps the preset |
| MixerStore.LoadUnknownPresetIsNoop | src/store/useMixerStore.ts:144-152 | loading an unknown id changes nothing |
| MixerStore.SaveThenLoadRestores | src/store/useMixerStore.ts:144-164 | saving appends exactly one current preset; loading it later restores the saved channels |
| MixerStore.UserPresetIdsDiffer | src/store/useMixerStore.ts:156 | presets saved at different times get different ids |
| MixerStore.DeletePreset | src/store/useMixerStore.ts:166-171 | deletion removes the id, keeps others in order, clears current only if it matched, and is idempotent |
| MixerStore.ChannelActionsKeepLevels | src/store/useMixerStore.ts:101-117 | channel actions keep every volume in [0, 1] |
| MixerStore.PresetLoadKeepsLevels | src/store/useMixerStore.ts:144-152 | loading a preset of levels keeps every volume in [0, 1] |
| MixerStore.PresetActionsKeepLevels | src/store/useMixerStore.ts:154-171 | saving and deleting keep every volume in [0, 1] |
| MixerStore.UpdateKeepsLevels | src/store/useMixerStore.ts:101-171 | every channel and preset action keeps every volume in [0, 1] |
| MixerStore.RandomizeMixKeepsLevels | src/store/useMixerStore.ts:83-90 | randomizeMix keeps every volume in [0, 1] |
| PresetsModal.HexByte | src/components/PresetsModal.tsx:28-30 | two hex digits give a byte value below 256 |
| PresetsModal.IsHexColor | src/components/PresetsModal.tsx:27-30 | definition of the "#RRGGBB" shape hexToRgba reads |
| PresetsModal.ParseRgb | src/components/PresetsModal.tsx:27-30 | the three components are the bytes at slices 1, 3 and 5 |
| PresetsModal.ByteHex | src/constants/colors.ts:4-17 | two hexadecimal digits |
| PresetsModal.HexColor | src/constants/colors.ts:4-17 | the spelling is a well-formed #RRGGBB |
| PresetsModal.ParseHexColor | src/components/PresetsModal.tsx:27-30 | parsing a spelled colour gives back its components |
| PresetsModal.ByteHexOfDigits | src/components/PresetsModal.tsx:28-30 | two hex digits spelled back from their byte value give the upper-case digits |
| PresetsModal.HexColorOfParse | src/components/PresetsModal.tsx:27-30 | spelling a parsed upper-case colour gives back the text |
| PresetsModal.PaletteIsHex | src/constants/colors.ts:4-17 | every palette entry is an upper-case #RRGGBB |
| PresetsModal.HexToRgba | src/components/PresetsModal.tsx:27-32 | definition of hexToRgba; RgbaNamesComponents states its text |
| PresetsModal.RgbaNamesComponents | src/components/PresetsModal.tsx:31 | the rgba text lists the three components in decimal, in order |
| PresetsModal.ColorIndex | src/components/PresetsModal.tsx:161 | the palette position is below twelve |
| PresetsModal.ColorIndexCycle | src/components/PresetsModal.tsx:160-161 | rows twelve apart share a colour; closer rows differ |
| PresetsModal.ThemeColor | src/components/PresetsModal.tsx:160-161 | every row colour is a palette entry |
| PresetsModal.DisplayName | src/components/PresetsModal.tsx:164-169 | definition of a row's name: the translated titles for the two built-in presets, the stored name otherwise |
| PresetsModal.IsActiveRow | src/components/PresetsModal.tsx:159 | definition: the row is the current preset |
| PresetsModal.SavedPresetRow | src/components/PresetsModal.tsx:158-197 | a saved preset is the last row, under its name, and is the marked row |
| PresetsModal.TappedRowIsMarked | src/components/PresetsModal.tsx:179-182 | after a tap exactly the rows with its id are marked |
| PresetsModal.DeletedRowIsGone | src/components/PresetsModal.tsx:208-212 | after delete no row has its id; if it was marked no row is |
| PresetsModal.CanSave | src/components/PresetsModal.tsx:54 | definition: the trimmed name is not empty |
| PresetsModal.SaveRequested | src/components/PresetsModal.tsx:53-58 | definition of handleSave on the store; SaveValidation states its two cases |
| PresetsModal.SaveValidation | src/components/PresetsModal.tsx:53-58 | a blank name saves nothing; otherwise one preset named by the trimmed text is appended and made current |
| PresetsModal.Sheet.constructor | src/components/PresetsModal.tsx:51 | the name field starts empty |
| PresetsModal.Sheet.ChangeText | src/components/PresetsModal.tsx:125-127 | the field keeps at most 30 characters |
| PresetsModal.Sheet.HandleSave | src/components/PresetsModal.tsx:53-58 | the store gets the save transition; the field clears iff something was saved |
| PresetsModal.Sheet.RowPressed | src/components/PresetsModal.tsx:179-182 | loads the row's preset and closes the sheet |
| PresetsModal.Sheet.DeletePressed | src/components/PresetsModal.tsx:208-212 | deletes the row's preset and keeps the sheet open |
| PresetsModal.SavedNameFitsField | src/components/PresetsModal.tsx:127 | a name saved through the sheet is at most 30 characters |
| Text.DigitValue | src/components/Header.tsx:79 | a decimal digit's value is below 10 |
| Text.DigitChar | src/components/Header.tsx:79 | the digit character reads back as its value |
| Text.NatToString | src/components/Header.tsx:77-79 | the decimal text is non-empty digits without a leading zero |
| Text.DecimalRoundTrip | src/components/Header.tsx:79 | reading the decimal text back gives the number |
| Text.NatToStringInjective | src/components/Header.tsx:117 | distinct numbers render to distinct texts |
| Text.IntToString | src/components/Header.tsx:117 | negatives get a minus sign before the digits of the magnitude |
| Text.HexValue | src/components/PresetsModal.tsx:28-30 | a hex digit's value is below 16 |
| Text.HexChar | src/constants/colors.ts:4-17 | the upper-case hex digit reads back as its value |
| Text.LeadingSpace | src/components/PresetsModal.tsx:54 | the count is a whitespace prefix followed by a non-space or the end |
| Text.TrailingSpace | src/components/PresetsModal.tsx:54 | the count is a whitespace suffix preceded by a non-space or the start |
| Text.IsJsWhitespace | src/components/PresetsModal.tsx:54 | definition of the characters `trim` removes: ECMAScript WhiteSpace and LineTerminator |
| Text.Trim | src/components/PresetsModal.tsx:54 | the result is the slice of the input after its leading whitespace, followed only by whitespace, and neither starting nor ending with whitespace; empty iff the input is all whitespace |
| Text.TrimUnique | src/components/PresetsModal.tsx:54 | any text that starts after the leading whitespace, is followed only by whitespace and does not end in whitespace is the trimmed text, so the contract of Trim pins it down |
| Text.TrimIdempotent | src/components/PresetsModal.tsx:54-55 | trimming twice is trimming once |
| ZenMode.InteractionShowsControls | App.tsx:56-70 | an interaction changes at most the zen flag and leaves zen off while playing |
| ZenMode.ZenReset | App.tsx:56-70 | definition of resetZenTimer's effect on the store; InteractionShowsControls states it |
| ZenMode.PlayingEffectShowsControls | App.tsx:72-82 | after the play effect zen is off and nothing else changed |
| ZenMode.PlayingEffect | App.tsx:72-82 | definition of the isPlaying effect on the store; PlayingEffectShowsControls states it |
| ZenMode.AfterRender | App.tsx:72-82 | the isPlaying effect runs only when the flag differs from the previous render: otherwise the store is unchanged, and on a change only zen turns off |
| ZenMode.RandomizedMixShowsControls | App.tsx:72-82 | randomizeMix leaves playback on in zen; from a stopped state the play effect that follows turns zen off, while from a playing state the flag does not change, no effect runs and zen stays on |
| ZenMode.Controller.constructor | App.tsx:54 | no timeout pending at mount |
| ZenMode.Controller.ClearCurrent | App.tsx:57 | the ref's timeout is cancelled |
| ZenMode.Controller.Schedule | App.tsx:66-68 | exactly one timeout is pending, due five seconds later, and the ref holds it |
| ZenMode.Controller.ResetZenTimer | App.tsx:56-70 | the store gets the reset transition; a timeout is pending iff playing |
| ZenMode.Controller.PlayingChanged | App.tsx:72-82 | the store gets the play-effect transition; a timeout is pending iff playing |
| ZenMode.Controller.Fire | App.tsx:66-68 | at or after its deadline the pending timeout turns zen on |
| ZenMode.Controller.Unmount | App.tsx:79-81 | no timeout remains pending |

## Left out

- Rendering, styling, gestures, haptics, animation curves and the splash and font loading are left out. Animated values appear only as the target handed to `withTiming`.
- Storage I/O, JSON encoding and AsyncStorage are left out. A stored blob is a value whose objects keep their key order.
- Audio output and `setAudioModeAsync` are left out. A player is its observable status plus a log of the commands sent to it.
- Real numbers replace IEEE doubles. Rounding in the fade steps (1/28, 0.1) and in the ramp is not modelled.
- `Math.random`, the shuffle comparator and `Date.now` become parameters. The shuffle is any permutation of the entitled ids.
- Timer callbacks run only when the environment calls the matching tick method. Their interleaving is left to the caller.
- AudioEngine.ChannelAudio.VariationTick: a variation firing replaces the running ramp. The source keeps only the last ramp's handle, so an overlapping earlier ramp would keep writing until its own 30 steps end. The model assumes each 3 s ramp finishes before the next 8–16 s firing.
- The binaural volume is not scaled by the channel fade multiplier. The model follows the code here, and the code does not fade it.
- ZenMode.Controller.ResetZenTimer: the model reads the store's current values. The source's callback may hold values captured at an earlier render.
- PresetsModal.ParseRgb: requires a well-formed "#RRGGBB". `parseInt` giving NaN on a malformed colour is not modelled, and every palette colour is well-formed.
- A channel record's id and label are `Option<string>`. `randomizeMix` spreads `INITIAL_CHANNELS[id]`, and the free id plage has no record there, so the record it writes for plage has no id and no label. Nothing else about such a partial record is modelled.
- LanguageSwitcher, the paywall screen, RevenueCat, MixerBoard, LiquidSlider and the translation string tables are not part of this model. A table is named by its language.

## Findings

| source | as written | input that shows it | evidently intended | confidence | as-written member | corrected member |
|---|---|---|---|---|---|---|
| src/store/useMixerStore.ts:192-211 | the rename table maps mer, riviere and insectes to plage, goelands and cigales, but the store's default channels (src/constants/channels.ts:3-67) still use the old ids, so renamed keys are dropped | a stored blob with mer unmuted at 0.9 comes back with mer muted at 0.5 | the default channels keyed by the audio registry ids, so old settings carry over | not executed | RegistryMigration.ShippedChannelsLoseOldIdSettings | RegistryMigration.AudioKeyedChannelsRestoreSettings |
| src/components/AudioEngine.tsx:211-217 | one ChannelAudio is mounted per audio-registry id, each reading `channels[id]`, but six of those ids have no record in the default channels; for those `channelState` is undefined, so reading `channelState.isMuted` in the effects' dependency lists (lines 76 and 122) throws a TypeError during render instead of playing silence | the default store, with channel ids plage, goelands, cigales, grillons, voiture or train | every mounted id has a channel record | not executed | AudioEngine.MountedChannelsMissingFromStore | AudioEngine.AudioKeyedStoreCoversMountedChannels |
