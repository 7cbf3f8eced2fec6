# Local gapless playback engine, modelled in Dafny

This project models the local playback engine of the RoboPhish Android app,
together with the backend-agnostic `Playback` interface it implements.

The engine drives two host decoders (Android `MediaPlayer`s) in slots A and B.
One of them is the active one. The active reference can point at A, at B, or be
null. The engine also keeps:

- the playback state (NONE, STOPPED, PAUSED, PLAYING, BUFFERING);
- the audio focus it believes it holds (no focus, ducking, focused);
- a pending resume, the stored position, the current media id and the pending
  gapless media id;
- whether a gapless hand-off is armed;
- the Wi-Fi lock and the noisy-audio receiver registration.

Commands come from the media session: `play`, `playNext`, `pause`, `seekTo`,
`stop` and the property setters. Events come from the host: `onPrepared`,
`onCompletion`, `onSeekComplete`, `onAudioFocusChange`, `onError`. Commands and
events report to a callback sink, which by default is the no-op `EMPTY`. Some
report nothing:
- `seekTo` without a decoder;
- `onPrepared` during a hand-off;
- `updateLastKnownStreamPosition`;
- a `playNext` whose source is assigned;
- the property setters.

The project has these modules:

- `PlaybackContract` holds the interface side:
  - the state codes;
  - the four callback calls;
  - the callback sink, with `EMPTY` proved to observe nothing;
  - the documented promises of `stop`, `isPlaying`, `playNext` and
    `updateLastKnownStreamPosition`, which the engine is shown to keep.
- `MediaPlayers` is the host decoder as the engine sees it: a record of what
  the engine asked of it (source, prepare, start/pause, seek, volume, gapless
  successor, reset, release).
- `LocalPlaybackEngine` is the engine as a value, `Engine`, with one function
  per command, event and private helper. Each function returns the new engine
  and the list of callback calls made, in order.
- `LocalPlaybackClass.LocalPlayback` is the engine as a class.
  - Its fields are those of the Kotlin class, and its methods update them in
    place, statement for statement, in the same order as the Kotlin code.
    `OnSeekComplete` first records the reported position in the active
    decoder, since the engine only ever seeks that decoder and the host
    reports where it now stands.
  - Every method promises that the new fields are the matching `Engine`
    function of the old ones.
  - It also promises that exactly that function's callback calls reached the
    sink, in order (`Sent`).
  - The public methods also keep the invariant.
  - Some long handlers are split into named runs of consecutive statements:
    `Reload`, `StopPlaying`, `ReleaseAll`, `LoadNext`, `HandOff`,
    `ApplyFocusVolume`, `ResumeIfPending`, `NoteFocusChange` and `BeginPlay`.
- `LocalPlaybackInvariant` proves that every command and event keeps the engine
  invariant:
  - the slots are consistent;
  - BUFFERING or PLAYING needs an active decoder;
  - the Wi-Fi lock is held at most once, and only while a decoder is active.
- `LocalPlaybackProperties` proves what each command and event does:
  - the media-id check of `play` and its restart path;
  - gapless arming, successor linking and hand-off;
  - `pause` and `stop`;
  - seeking;
  - the focus mapping and the focus reconciliation;
  - lock release and idempotent resource release;
  - end-to-end scenarios: a focus loss and regain; a gapless hand-off that
    ends with the next media playing; arming the current media again, which
    leaves a null media id; a pause during BUFFERING that `onPrepared`
    overrides;
  - the end of media, with and without a hand-off armed.
- `LocalPlaybackReachability` runs any sequence of commands and host events
  from the constructed engine. A run fails exactly where the source would
  dereference a null decoder, and one such sequence is exhibited. Every state
  a run reaches satisfies the invariant, proved by induction over the
  sequence.

The host's answers are parameters of the operations:

- whether a focus request or abandon was granted;
- whether assigning a data source failed, and with which message;
- the source the catalog resolved for a media id;
- the position a decoder reports when a seek completes;
- the codes of a decoder error.

The end of media is the host's own step, `Engine.Finish`, which comes before
`onCompletion`.

Some Kotlin `!!` and `requireNotNull` dereferences are the caller's
obligation, so they appear as preconditions:

- the next slot of `playNext` must hold a decoder;
- an active decoder must exist for a ducking reconciliation;
- an active decoder must exist when a seek completes in BUFFERING;
- an active decoder must exist for a hand-off in `onCompletion` and
  `onPrepared`.

The Wi-Fi lock is modelled as the host's reference-counted lock, by its
acquire count.

## Model

| member | source | states |
|---|---|---|
| PlaybackContract.StateFromCode | mobile/src/main/java/never/ending/splendor/app/playback/Playback.kt:39-45 | a host code maps back to the state with that code, and to no state exactly when no state has that code |
| PlaybackContract.StateCodeRoundTrip | mobile/src/main/java/never/ending/splendor/app/playback/Playback.kt:39-45 | every state's code reads back as that state |
| PlaybackContract.EmptyIgnoresAll | mobile/src/main/java/never/ending/splendor/app/playback/Playback.kt:125-131 | the `EMPTY` sink is unchanged by any series of calls |
| PlaybackContract.SessionReceivesAll | mobile/src/main/java/never/ending/splendor/app/playback/Playback.kt:102-123 | a session sink receives every call, in the order made |
| PlaybackContract.ReceiveAllIsDelivered | mobile/src/main/java/never/ending/splendor/app/playback/Playback.kt:102-131 | making the calls one at a time gives the closed form that the class's `Sent` uses |
| PlaybackContract.ReceiveAllAppend | mobile/src/main/java/never/ending/splendor/app/playback/Playback.kt:102-131 | two batches of calls have the effect of the two batches concatenated |
| MediaPlayers.Slot.Other | mobile/src/main/java/never/ending/splendor/app/playback/LocalPlayback.kt:50-52 | the other slot differs from this one |
| MediaPlayers.Volume.Percent | mobile/src/main/java/never/ending/splendor/app/playback/LocalPlayback.kt:484-489 | both volumes are positive and at most full volume, and only the normal volume is full |
| MediaPlayers.NewDecoder | mobile/src/main/java/never/ending/splendor/app/playback/LocalPlayback.kt:423-439 | a new decoder is idle, not released and at normal volume |
| MediaPlayers.Reset | mobile/src/main/java/never/ending/splendor/app/playback/LocalPlayback.kt:441 | a reset decoder is idle and keeps its released flag and volume |
| LocalPlaybackEngine.CreateMediaPlayer | mobile/src/main/java/never/ending/splendor/app/playback/LocalPlayback.kt:420-444 | the result is idle; an empty slot gets a fresh unreleased decoder at normal volume, an occupied one its own decoder reset, which keeps its released flag |
| LocalPlaybackEngine.DecoderErrorMessage | mobile/src/main/java/never/ending/splendor/app/playback/LocalPlayback.kt:404 | the error text starts with "MediaPlayer error " and ends with ")" |
| LocalPlaybackEngine.DecoderErrorMessageInjective | mobile/src/main/java/never/ending/splendor/app/playback/LocalPlayback.kt:404 | different (what, extra) code pairs give different error texts, so the text names both codes |
| LocalPlaybackEngine.NatToString | mobile/src/main/java/never/ending/splendor/app/playback/LocalPlayback.kt:404 | a number prints as decimal digits without a leading zero |
| LocalPlaybackEngine.NatToStringRoundTrip | mobile/src/main/java/never/ending/splendor/app/playback/LocalPlayback.kt:404 | the decimal text of a natural number reads back as that number |
| LocalPlaybackEngine.IntToString | mobile/src/main/java/never/ending/splendor/app/playback/LocalPlayback.kt:404 | the text is non-empty, holds only digits and minus signs, and starts with a minus sign exactly for negative numbers |
| LocalPlaybackEngine.IntToStringRoundTrip | mobile/src/main/java/never/ending/splendor/app/playback/LocalPlayback.kt:404 | the signed decimal text of an integer reads back as that integer |
| LocalPlaybackEngine.Players.Set | mobile/src/main/java/never/ending/splendor/app/playback/LocalPlayback.kt:50-51 | writing a slot changes that slot only and keeps the active reference |
| LocalPlaybackEngine.Players.SetActive | mobile/src/main/java/never/ending/splendor/app/playback/LocalPlayback.kt:52 | updating the decoder through the active reference changes the decoder it names and leaves the other slot alone |
| LocalPlaybackEngine.Players.NextSlot | mobile/src/main/java/never/ending/splendor/app/playback/LocalPlayback.kt:67-69 | with an active reference the next slot is the other one; with a null reference it is A when slot A holds a decoder and B otherwise (null equals null) |
| LocalPlaybackEngine.Players.CreateIfNeeded | mobile/src/main/java/never/ending/splendor/app/playback/LocalPlayback.kt:409-413 | both slots hold a created or reset decoder, a null active reference becomes A, and the active decoder is idle |
| LocalPlaybackEngine.Players.ReleaseActive | mobile/src/main/java/never/ending/splendor/app/playback/LocalPlayback.kt:457-461 | a non-null active reference becomes null, and the decoder it named is reset and released but stays in its slot; the other slot is untouched; with a null reference nothing changes |
| LocalPlaybackEngine.Engine.IsPlaying | mobile/src/main/java/never/ending/splendor/app/playback/Playback.kt:52-56 | playing exactly when a resume is pending on focus gain or the active decoder is playing |
| LocalPlaybackEngine.Engine.CurrentStreamPosition | mobile/src/main/java/never/ending/splendor/app/playback/LocalPlayback.kt:104-105 | the stream position is the active decoder's position when one is active, and the stored position otherwise |
| LocalPlaybackEngine.Engine.RelaxResources | mobile/src/main/java/never/ending/splendor/app/playback/LocalPlayback.kt:453-467 | the lock count drops when the lock is held and is zero otherwise |
| LocalPlaybackEngine.Engine.Pause | mobile/src/main/java/never/ending/splendor/app/playback/LocalPlayback.kt:198-214 | pause always ends PAUSED, reports exactly `StatusChanged(PAUSED)` and leaves the noisy receiver unregistered |
| LocalPlaybackEngine.Engine.ApplyFocusVolume | mobile/src/main/java/never/ending/splendor/app/playback/LocalPlayback.kt:278-284 | the volume step keeps the active reference and whether a decoder is active |
| LocalPlaybackEngine.Engine.ResumeIfPending | mobile/src/main/java/never/ending/splendor/app/playback/LocalPlayback.kt:286-301 | afterwards no resume is pending |
| LocalPlaybackEngine.Engine.ConfigMediaPlayerState | mobile/src/main/java/never/ending/splendor/app/playback/LocalPlayback.kt:270-306 | the reconciliation always ends by reporting the state it leaves |
| LocalPlaybackEngine.Engine.Stop | mobile/src/main/java/never/ending/splendor/app/playback/Playback.kt:32-38 | the state is STOPPED, and `StatusChanged(STOPPED)` is the only call, made exactly when listeners are notified |
| LocalPlaybackEngine.Engine.UpdateLastKnownStreamPosition | mobile/src/main/java/never/ending/splendor/app/playback/Playback.kt:68-71 | the stored position becomes the live stream's position when a decoder is active and stays otherwise; nothing else changes |
| LocalPlaybackEngine.Engine.BeginPlay | mobile/src/main/java/never/ending/splendor/app/playback/LocalPlayback.kt:147-159 | the opening of `play` keeps the decoders and the state and makes the item's id current |
| LocalPlaybackEngine.Engine.Reload | mobile/src/main/java/never/ending/splendor/app/playback/LocalPlayback.kt:163-171 | the reload ends BUFFERING with an idle active decoder |
| LocalPlaybackEngine.Engine.Restart | mobile/src/main/java/never/ending/splendor/app/playback/LocalPlayback.kt:162-194 | the restart ends BUFFERING with an active decoder and reports `StatusChanged(BUFFERING)`, or only the error when assigning the source fails |
| LocalPlaybackEngine.Engine.Play | mobile/src/main/java/never/ending/splendor/app/playback/LocalPlayback.kt:145-196 | after `play` the item's id is current |
| LocalPlaybackEngine.Engine.PlayNext | mobile/src/main/java/never/ending/splendor/app/playback/LocalPlayback.kt:113-143 | a hand-off is armed, and the only call is the error of a failed source assignment |
| LocalPlaybackEngine.Engine.LoadNext | mobile/src/main/java/never/ending/splendor/app/playback/LocalPlayback.kt:125-140 | the load reports the error exactly when assigning the source fails |
| LocalPlaybackEngine.Engine.SeekTo | mobile/src/main/java/never/ending/splendor/app/playback/LocalPlayback.kt:216-230 | the resulting state is reported exactly when a decoder is active, and nothing is reported otherwise |
| LocalPlaybackEngine.Engine.OnSeekComplete | mobile/src/main/java/never/ending/splendor/app/playback/LocalPlayback.kt:341-351 | the stored position and the active decoder's position are the reported one, so the stream position getter returns it; the resulting state is reported once |
| LocalPlaybackEngine.Engine.Finish | mobile/src/main/java/never/ending/splendor/app/playback/LocalPlayback.kt:358-374 | the host's part of a completion: the active decoder stops, the decoder it was given as successor by `setNextMediaPlayer` (line 385) starts playing, and nothing else changes |
| LocalPlaybackEngine.Engine.OnCompletion | mobile/src/main/java/never/ending/splendor/app/playback/LocalPlayback.kt:358-374 | no hand-off stays armed, and the last call is always `onCompletion` |
| LocalPlaybackEngine.Engine.OnPrepared | mobile/src/main/java/never/ending/splendor/app/playback/LocalPlayback.kt:381-392 | `onPrepared` never arms or disarms a hand-off |
| LocalPlaybackEngine.Engine.NoteFocusChange | mobile/src/main/java/never/ending/splendor/app/playback/LocalPlayback.kt:312-332 | the focus becomes the one the host's change code maps to; the decoders and the state are untouched |
| LocalPlaybackEngine.Engine.OnAudioFocusChange | mobile/src/main/java/never/ending/splendor/app/playback/LocalPlayback.kt:312-334 | after the change and the reconciliation, the focus is the one the change code maps to |
| LocalPlaybackEngine.Engine.OnError | mobile/src/main/java/never/ending/splendor/app/playback/LocalPlayback.kt:401-407 | a decoder error reports "MediaPlayer error what (extra)", changes nothing and is handled |
| LocalPlaybackEngine.InitialEngine | mobile/src/main/java/never/ending/splendor/app/playback/LocalPlayback.kt:33-65 | the constructed engine keeps the invariant, is in state NONE, has no active decoder and is not playing |
| LocalPlaybackClass.LocalPlayback.constructor | mobile/src/main/java/never/ending/splendor/app/playback/LocalPlayback.kt:501-504 | the fields start as the initial engine, the sink is `EMPTY` and nothing has been reported |
| LocalPlaybackClass.LocalPlayback.NextPlayer | mobile/src/main/java/never/ending/splendor/app/playback/LocalPlayback.kt:67-69 | the slot found by identity comparison of the references is the engine's next slot |
| LocalPlaybackClass.LocalPlayback.SetCallback | mobile/src/main/java/never/ending/splendor/app/playback/Playback.kt:135 | the sink is replaced and nothing else changes |
| LocalPlaybackClass.LocalPlayback.IsPlaying | mobile/src/main/java/never/ending/splendor/app/playback/LocalPlayback.kt:102 | playing exactly when a resume is pending or the active decoder is playing |
| LocalPlaybackClass.LocalPlayback.CurrentStreamPosition | mobile/src/main/java/never/ending/splendor/app/playback/LocalPlayback.kt:104-105 | the stream position is the active decoder's position when the reference is non-null, and the stored position otherwise |
| LocalPlaybackClass.LocalPlayback.SetCurrentStreamPosition | mobile/src/main/java/never/ending/splendor/app/playback/LocalPlayback.kt:104-105 | the setter writes only the backing field, and the getter's value is unchanged |
| LocalPlaybackClass.LocalPlayback.SetState | mobile/src/main/java/never/ending/splendor/app/playback/LocalPlayback.kt:33 | the state is replaced and nothing else changes |
| LocalPlaybackClass.LocalPlayback.SetCurrentMediaId | mobile/src/main/java/never/ending/splendor/app/playback/LocalPlayback.kt:45-46 | the current media id is replaced and nothing else changes |
| LocalPlaybackClass.LocalPlayback.UpdateLastKnownStreamPosition | mobile/src/main/java/never/ending/splendor/app/playback/LocalPlayback.kt:107-111 | the fields become `Engine.UpdateLastKnownStreamPosition` of the old ones, and nothing is reported |
| LocalPlaybackClass.LocalPlayback.TryToGetAudioFocus | mobile/src/main/java/never/ending/splendor/app/playback/LocalPlayback.kt:235-246 | the fields become `Engine.TryToGetAudioFocus` of the old ones |
| LocalPlaybackClass.LocalPlayback.GiveUpAudioFocus | mobile/src/main/java/never/ending/splendor/app/playback/LocalPlayback.kt:251-258 | the fields become `Engine.GiveUpAudioFocus` of the old ones |
| LocalPlaybackClass.LocalPlayback.RegisterAudioNoisyReceiver | mobile/src/main/java/never/ending/splendor/app/playback/LocalPlayback.kt:469-474 | the receiver is registered afterwards, and nothing else changes |
| LocalPlaybackClass.LocalPlayback.UnregisterAudioNoisyReceiver | mobile/src/main/java/never/ending/splendor/app/playback/LocalPlayback.kt:476-481 | the receiver is unregistered afterwards, and nothing else changes |
| LocalPlaybackClass.LocalPlayback.RelaxResources | mobile/src/main/java/never/ending/splendor/app/playback/LocalPlayback.kt:453-467 | the fields become `Engine.RelaxResources` of the old ones |
| LocalPlaybackClass.LocalPlayback.CreateMediaPlayerIfNeeded | mobile/src/main/java/never/ending/splendor/app/playback/LocalPlayback.kt:409-413 | the slots become `Players.CreateIfNeeded` of the old ones |
| LocalPlaybackClass.LocalPlayback.ApplyFocusVolume | mobile/src/main/java/never/ending/splendor/app/playback/LocalPlayback.kt:278-284 | the fields become `Engine.ApplyFocusVolume` of the old ones |
| LocalPlaybackClass.LocalPlayback.ResumeIfPending | mobile/src/main/java/never/ending/splendor/app/playback/LocalPlayback.kt:286-301 | the fields become `Engine.ResumeIfPending` of the old ones |
| LocalPlaybackClass.LocalPlayback.ConfigMediaPlayerState | mobile/src/main/java/never/ending/splendor/app/playback/LocalPlayback.kt:270-306 | the fields and the calls made are those of `Engine.ConfigMediaPlayerState`, and the invariant is kept |
| LocalPlaybackClass.LocalPlayback.Stop | mobile/src/main/java/never/ending/splendor/app/playback/LocalPlayback.kt:88-99 | the fields and the calls made are those of `Engine.Stop`, and the invariant is kept |
| LocalPlaybackClass.LocalPlayback.ReleaseAll | mobile/src/main/java/never/ending/splendor/app/playback/LocalPlayback.kt:93-98 | the fields become `Engine.ReleaseAll` of the old ones |
| LocalPlaybackClass.LocalPlayback.BeginPlay | mobile/src/main/java/never/ending/splendor/app/playback/LocalPlayback.kt:147-159 | the media has changed exactly when the item's id differs from the current one, and the fields become `Engine.BeginPlay` of the old ones |
| LocalPlaybackClass.LocalPlayback.Restart | mobile/src/main/java/never/ending/splendor/app/playback/LocalPlayback.kt:162-194 | the fields and the calls made are those of `Engine.Restart` |
| LocalPlaybackClass.LocalPlayback.Reload | mobile/src/main/java/never/ending/splendor/app/playback/LocalPlayback.kt:163-171 | the fields become `Engine.Reload` of the old ones |
| LocalPlaybackClass.LocalPlayback.Play | mobile/src/main/java/never/ending/splendor/app/playback/LocalPlayback.kt:145-196 | the fields and the calls made are those of `Engine.Play`, and the invariant is kept |
| LocalPlaybackClass.LocalPlayback.PlayNext | mobile/src/main/java/never/ending/splendor/app/playback/LocalPlayback.kt:113-143 | returns true because gapless is supported; the fields and the calls made are those of `Engine.PlayNext`, and the invariant is kept |
| LocalPlaybackClass.LocalPlayback.LoadNext | mobile/src/main/java/never/ending/splendor/app/playback/LocalPlayback.kt:125-140 | the fields and the calls made are those of `Engine.LoadNext` |
| LocalPlaybackClass.LocalPlayback.Pause | mobile/src/main/java/never/ending/splendor/app/playback/LocalPlayback.kt:198-214 | the fields and the calls made are those of `Engine.Pause`, and the invariant is kept |
| LocalPlaybackClass.LocalPlayback.StopPlaying | mobile/src/main/java/never/ending/splendor/app/playback/LocalPlayback.kt:199-208 | the fields become `Engine.StopPlaying` of the old ones |
| LocalPlaybackClass.LocalPlayback.SeekTo | mobile/src/main/java/never/ending/splendor/app/playback/LocalPlayback.kt:216-230 | the fields and the calls made are those of `Engine.SeekTo`, and the invariant is kept |
| LocalPlaybackClass.LocalPlayback.NoteFocusChange | mobile/src/main/java/never/ending/splendor/app/playback/LocalPlayback.kt:312-332 | the fields become `Engine.NoteFocusChange` of the old ones |
| LocalPlaybackClass.LocalPlayback.OnAudioFocusChange | mobile/src/main/java/never/ending/splendor/app/playback/LocalPlayback.kt:312-334 | the fields and the calls made are those of `Engine.OnAudioFocusChange`, and the invariant is kept |
| LocalPlaybackClass.LocalPlayback.OnSeekComplete | mobile/src/main/java/never/ending/splendor/app/playback/LocalPlayback.kt:341-351 | the fields and the calls made are those of `Engine.OnSeekComplete` (the active decoder stands at the reported position), and the invariant is kept |
| LocalPlaybackClass.LocalPlayback.OnCompletion | mobile/src/main/java/never/ending/splendor/app/playback/LocalPlayback.kt:358-374 | the fields and the calls made are those of `Engine.OnCompletion`, and the invariant is kept |
| LocalPlaybackClass.LocalPlayback.HandOff | mobile/src/main/java/never/ending/splendor/app/playback/LocalPlayback.kt:362-368 | the fields become `Engine.HandOff` of the old ones |
| LocalPlaybackClass.LocalPlayback.OnPrepared | mobile/src/main/java/never/ending/splendor/app/playback/LocalPlayback.kt:381-392 | the fields and the calls made are those of `Engine.OnPrepared`, and the invariant is kept |
| LocalPlaybackClass.LocalPlayback.OnError | mobile/src/main/java/never/ending/splendor/app/playback/LocalPlayback.kt:401-407 | the error is reported as handled; the fields and the calls made are those of `Engine.OnError` |
| LocalPlaybackInvariant.RelaxResourcesKeepsValid | mobile/src/main/java/never/ending/splendor/app/playback/LocalPlayback.kt:453-467 | releasing resources keeps the invariant (releasing the decoder only outside BUFFERING and PLAYING) and leaves the lock not held |
| LocalPlaybackInvariant.PauseKeepsValid | mobile/src/main/java/never/ending/splendor/app/playback/LocalPlayback.kt:198-214 | `pause` keeps the invariant |
| LocalPlaybackInvariant.StopPlayingKeepsValid | mobile/src/main/java/never/ending/splendor/app/playback/LocalPlayback.kt:199-208 | pausing from PLAYING keeps the invariant |
| LocalPlaybackInvariant.ConfigKeepsValid | mobile/src/main/java/never/ending/splendor/app/playback/LocalPlayback.kt:270-306 | the focus reconciliation keeps the invariant |
| LocalPlaybackInvariant.ApplyFocusVolumeKeepsValid | mobile/src/main/java/never/ending/splendor/app/playback/LocalPlayback.kt:278-284 | the volume step keeps the invariant |
| LocalPlaybackInvariant.ResumeIfPendingKeepsValid | mobile/src/main/java/never/ending/splendor/app/playback/LocalPlayback.kt:286-301 | the resume step keeps the invariant |
| LocalPlaybackInvariant.StopKeepsValid | mobile/src/main/java/never/ending/splendor/app/playback/LocalPlayback.kt:88-99 | `stop` keeps the invariant |
| LocalPlaybackInvariant.PlayKeepsValid | mobile/src/main/java/never/ending/splendor/app/playback/LocalPlayback.kt:145-196 | `play` keeps the invariant, and on the restart path the lock is held once exactly when the source was assigned |
| LocalPlaybackInvariant.RestartKeepsValid | mobile/src/main/java/never/ending/splendor/app/playback/LocalPlayback.kt:162-194 | the restart keeps the invariant and holds the lock once exactly when the source was assigned |
| LocalPlaybackInvariant.ReloadKeepsValid | mobile/src/main/java/never/ending/splendor/app/playback/LocalPlayback.kt:163-171 | the reload keeps the invariant and leaves the lock not held |
| LocalPlaybackInvariant.PlayNextKeepsValid | mobile/src/main/java/never/ending/splendor/app/playback/LocalPlayback.kt:113-143 | `playNext` keeps the invariant |
| LocalPlaybackInvariant.SeekToKeepsValid | mobile/src/main/java/never/ending/splendor/app/playback/LocalPlayback.kt:216-230 | `seekTo` keeps the invariant |
| LocalPlaybackInvariant.OnSeekCompleteKeepsValid | mobile/src/main/java/never/ending/splendor/app/playback/LocalPlayback.kt:341-351 | in a valid engine the `!!` of `onSeekComplete` cannot fail, and the event keeps the invariant |
| LocalPlaybackInvariant.FinishKeepsValid | mobile/src/main/java/never/ending/splendor/app/playback/LocalPlayback.kt:358-374 | the host finishing the active decoder keeps the invariant and whether a decoder is active |
| LocalPlaybackInvariant.OnCompletionKeepsValid | mobile/src/main/java/never/ending/splendor/app/playback/LocalPlayback.kt:358-374 | `onCompletion` keeps the invariant |
| LocalPlaybackInvariant.OnPreparedKeepsValid | mobile/src/main/java/never/ending/splendor/app/playback/LocalPlayback.kt:381-392 | `onPrepared` keeps the invariant |
| LocalPlaybackInvariant.OnAudioFocusChangeKeepsValid | mobile/src/main/java/never/ending/splendor/app/playback/LocalPlayback.kt:312-334 | a focus change keeps the invariant |
| LocalPlaybackProperties.PlayNewMediaRestartsAtZero | mobile/src/main/java/never/ending/splendor/app/playback/LocalPlayback.kt:155-159 | `play` of a different media id restarts at position zero with that id current, in BUFFERING |
| LocalPlaybackProperties.PlaySameMediaWhilePausedOnlyReconciles | mobile/src/main/java/never/ending/splendor/app/playback/LocalPlayback.kt:160-161 | `play` of the same media while PAUSED with a decoder only reconciles focus: position, ids, lock, slots and what the decoder was given stay, and only the state is reported |
| LocalPlaybackProperties.PlayRestart | mobile/src/main/java/never/ending/splendor/app/playback/LocalPlayback.kt:145-196 | otherwise `play` disarms the hand-off, arms a resume, asks for focus, registers the receiver, goes BUFFERING with both decoders created or reset, and either prepares the source under a held lock and reports BUFFERING, or reports the error with nothing prepared and the lock not held |
| LocalPlaybackProperties.RestartPrepares | mobile/src/main/java/never/ending/splendor/app/playback/LocalPlayback.kt:162-194 | the restart changes only the state, the lock and the decoders; the active decoder is given the source and prepared unless assigning the source fails |
| LocalPlaybackProperties.RestartSlots | mobile/src/main/java/never/ending/splendor/app/playback/LocalPlayback.kt:409-413 | after the restart the active reference defaults to A, the other slot holds its created or reset decoder, and the active one holds its own with the source and a prepare unless assigning fails |
| LocalPlaybackProperties.PlayAfterStopReusesReleasedDecoder | mobile/src/main/java/never/ending/splendor/app/playback/LocalPlayback.kt:453-461 | after `stop`, `play` of another media makes the released decoder in slot A active again, because `stop` leaves it in its slot |
| LocalPlaybackProperties.PlayNextArmsOtherSlot | mobile/src/main/java/never/ending/splendor/app/playback/LocalPlayback.kt:113-143 | `playNext` gives the source (unless assigning fails) and a prepare to the decoder in the inactive slot only, records the pending id only for a different media id, arms the hand-off and changes nothing else |
| LocalPlaybackProperties.PreparedWhileSwappingLinksSuccessor | mobile/src/main/java/never/ending/splendor/app/playback/LocalPlayback.kt:383-387 | `onPrepared` during a hand-off only links the other slot as the active decoder's successor and reports nothing |
| LocalPlaybackProperties.PreparedOtherwiseReconciles | mobile/src/main/java/never/ending/splendor/app/playback/LocalPlayback.kt:389-391 | `onPrepared` without a hand-off is exactly the focus reconciliation |
| LocalPlaybackProperties.CompletionSwapsDecoders | mobile/src/main/java/never/ending/splendor/app/playback/LocalPlayback.kt:362-370 | completion during a hand-off zeroes the position, makes the pending id current, activates the other slot, resets the old decoder, ends the hand-off and reports the state before the completion |
| LocalPlaybackProperties.CompletionWithoutSwapOnlyReports | mobile/src/main/java/never/ending/splendor/app/playback/LocalPlayback.kt:371-373 | `onCompletion` without a hand-off changes no field and reports only the completion |
| LocalPlaybackProperties.FinishedHandOffContinuesWithSuccessor | mobile/src/main/java/never/ending/splendor/app/playback/LocalPlayback.kt:358-374 | when the active decoder plays to the end during a hand-off, the armed decoder becomes active and plays exactly when it was linked as successor, the finished one is reset, and the old state is reported before the completion; if the completion comes before the armed decoder was prepared, nothing plays |
| LocalPlaybackProperties.FinishedWithoutHandOffStops | mobile/src/main/java/never/ending/splendor/app/playback/LocalPlayback.kt:358-374 | when the active decoder plays to the end with no hand-off armed, it stops, the state is kept, only the completion is reported, and `isPlaying` is then just the pending resume |
| LocalPlaybackProperties.PauseFromPlaying | mobile/src/main/java/never/ending/splendor/app/playback/LocalPlayback.kt:199-208 | `pause` from PLAYING pauses a playing decoder and captures its position, releases the lock and gives up focus as far as the host grants |
| LocalPlaybackProperties.PauseOtherwise | mobile/src/main/java/never/ending/splendor/app/playback/LocalPlayback.kt:209-213 | `pause` from any other state only sets PAUSED, reports it and unregisters the receiver |
| LocalPlaybackProperties.SeekWithoutDecoderStoresPosition | mobile/src/main/java/never/ending/splendor/app/playback/LocalPlayback.kt:218-220 | `seekTo` without a decoder only stores the position and reports nothing |
| LocalPlaybackProperties.SeekWithDecoder | mobile/src/main/java/never/ending/splendor/app/playback/LocalPlayback.kt:221-229 | `seekTo` with a decoder asks it to seek, goes BUFFERING exactly when it was playing, and reports the state once |
| LocalPlaybackProperties.SeekCompleteResumes | mobile/src/main/java/never/ending/splendor/app/playback/LocalPlayback.kt:341-351 | `onSeekComplete` stores the reported position, where the active decoder now stands; from BUFFERING it starts the decoder and goes PLAYING; any other state is kept; nothing else changes |
| LocalPlaybackProperties.FocusChangeMapping | mobile/src/main/java/never/ending/splendor/app/playback/LocalPlayback.kt:312-332 | GAIN gives focus, LOSS and LOSS_TRANSIENT no focus, LOSS_TRANSIENT_CAN_DUCK ducking, other codes keep the focus; a resume is armed only by a non-duckable loss while PLAYING |
| LocalPlaybackProperties.VolumeKeepsSetup | mobile/src/main/java/never/ending/splendor/app/playback/LocalPlayback.kt:278-284 | the volume step keeps the focus, the references, the ids, the state, the position, the lock, and the active decoder's source, prepare state, position and playing flag |
| LocalPlaybackProperties.ResumeKeepsSetup | mobile/src/main/java/never/ending/splendor/app/playback/LocalPlayback.kt:286-301 | the resume step keeps the focus, references, ids, position, lock and what the decoder was given |
| LocalPlaybackProperties.PauseKeepsSetup | mobile/src/main/java/never/ending/splendor/app/playback/LocalPlayback.kt:272-276 | the pause inside the reconciliation keeps the focus, references, ids and what the decoder was given |
| LocalPlaybackProperties.ConfigKeepsDecoderSetup | mobile/src/main/java/never/ending/splendor/app/playback/LocalPlayback.kt:270-306 | the reconciliation never changes the focus, the active reference, the ids, the hand-off flag or what the decoders were given; without a pause it keeps the position and the lock too |
| LocalPlaybackProperties.ConfigWithoutFocus | mobile/src/main/java/never/ending/splendor/app/playback/LocalPlayback.kt:272-276 | without focus, PLAYING is paused with PAUSED reported twice, and any other state is only reported |
| LocalPlaybackProperties.ConfigWithFocus | mobile/src/main/java/never/ending/splendor/app/playback/LocalPlayback.kt:277-305 | with focus or ducking the volume follows the focus (full volume exactly when focused); a pending resume on a stopped decoder starts it at the stored position or seeks there; the resume is then cleared; otherwise the state is kept |
| LocalPlaybackProperties.FocusLossThenRegainResumes | mobile/src/main/java/never/ending/splendor/app/playback/LocalPlayback.kt:312-334 | a non-duckable loss while PLAYING pauses at the decoder's position and arms a resume; regaining focus starts the same decoder from there |
| LocalPlaybackProperties.StopReleasesActiveDecoder | mobile/src/main/java/never/ending/splendor/app/playback/LocalPlayback.kt:88-99 | `stop` snapshots the stream position, drops the active reference, resets and releases that decoder in its slot, releases the lock, unregisters the receiver, gives up focus as far as the host grants, and changes no id |
| LocalPlaybackProperties.RelaxResourcesIdempotent | mobile/src/main/java/never/ending/splendor/app/playback/LocalPlayback.kt:453-467 | relaxing resources twice is relaxing them once |
| LocalPlaybackProperties.FocusRequestsFollowTheHost | mobile/src/main/java/never/ending/splendor/app/playback/LocalPlayback.kt:235-258 | focus is lost on a give-up exactly when held and the host grants, gained on a request exactly when not held and the host grants; nothing else changes |
| LocalPlaybackProperties.StreamPositionSetterIsInvisible | mobile/src/main/java/never/ending/splendor/app/playback/LocalPlayback.kt:104-105 | writing the stream-position setter never changes what the getter returns |
| LocalPlaybackProperties.GaplessHandOff | mobile/src/main/java/never/ending/splendor/app/playback/LocalPlayback.kt:113-143 | play, prepare, `playNext`, the armed decoder's prepare (which links it as successor) and the first decoder playing to the end leave the next media current with its decoder playing from the other slot, the first decoder idle, the position zero, and report PLAYING then the completion |
| LocalPlaybackProperties.GaplessToSameMediaAdoptsStalePendingId | mobile/src/main/java/never/ending/splendor/app/playback/LocalPlayback.kt:116-120 | arming the current media again leaves the pending id as it was, and the completion that follows makes that stale id current |
| LocalPlaybackProperties.SameMediaHandOffFromFreshEngineLosesId | mobile/src/main/java/never/ending/splendor/app/playback/LocalPlayback.kt:116-120 | from the constructed engine, playing a media, arming the same media and completing leaves PLAYING with a null current media id |
| LocalPlaybackProperties.StopKeepsPendingResume | mobile/src/main/java/never/ending/splendor/app/playback/LocalPlayback.kt:88-99 | `stop` does not clear a pending resume, so `isPlaying` is true in STOPPED with no active decoder |
| LocalPlaybackProperties.PauseWhileBufferingIsOverriddenByPrepared | mobile/src/main/java/never/ending/splendor/app/playback/LocalPlayback.kt:196-213 | `pause` during BUFFERING leaves the resume armed by `play` pending, so the decoder's `onPrepared` starts it and the engine reaches PLAYING |
| LocalPlaybackReachability.Enabled | mobile/src/main/java/never/ending/splendor/app/playback/LocalPlayback.kt:113-392 | only `playNext`, a focus change, a seek completion, a completion and `onPrepared` can reach a null decoder; under the invariant a seek completion never does, nor does `playNext` once the decoders exist |
| LocalPlaybackReachability.ApplyKeepsValid | mobile/src/main/java/never/ending/splendor/app/playback/LocalPlayback.kt:88-407 | every command and host event whose unchecked dereferences find a decoder keeps the invariant |
| LocalPlaybackReachability.RunKeepsValid | mobile/src/main/java/never/ending/splendor/app/playback/LocalPlayback.kt:88-407 | any sequence of commands and host events from a valid engine reaches only valid engines |
| LocalPlaybackReachability.ReachableStatesAreSound | mobile/src/main/java/never/ending/splendor/app/playback/LocalPlayback.kt:27-505 | in every state reachable from the constructed engine, BUFFERING and PLAYING have an active decoder, the Wi-Fi lock is acquired at most once and held only with an active decoder, and both slots are created together |
| LocalPlaybackReachability.RunFailsOnlyWhenDisabled | mobile/src/main/java/never/ending/splendor/app/playback/LocalPlayback.kt:113-392 | a run fails exactly when it reaches a state in which the next stimulus would dereference a null decoder |
| LocalPlaybackReachability.PreparedAfterStopAndPlayNextFails | mobile/src/main/java/never/ending/splendor/app/playback/LocalPlayback.kt:379-386 | from the constructed engine, `play`, `stop`, `playNext` and the armed decoder's `onPrepared` reach the unchecked dereference of the null active reference |
| LocalPlaybackReachability.SeekWhilePausedThenPlayStarts | mobile/src/main/java/never/ending/splendor/app/playback/LocalPlayback.kt:216-230 | from the constructed engine, play, prepare, pause, a seek while paused, its completion and play again start the decoder from the seek position in PLAYING, since the stored and the decoder's positions agree at line 292 |
| LocalPlaybackReachability.PlayThenPreparedPlays | mobile/src/main/java/never/ending/splendor/app/playback/LocalPlayback.kt:145-198 | from the constructed engine, `play` with focus granted and `onPrepared` leave the media playing in PLAYING with the invariant kept |
| LocalPlaybackReachability.PausedSeekThenPlayStarts | mobile/src/main/java/never/ending/splendor/app/playback/LocalPlayback.kt:286-301 | from PLAYING, `pause`, a seek, its completion and `play` of the same media start the decoder at the seek position |
| LocalPlaybackReachability.RunPausedSeekThenPlay | mobile/src/main/java/never/ending/splendor/app/playback/LocalPlayback.kt:341-351 | the same four steps as a run, which no null dereference stops |
| LocalPlaybackReachability.RunPauseThenSeek | mobile/src/main/java/never/ending/splendor/app/playback/LocalPlayback.kt:198-230 | `pause` and then `seekTo` hold no unchecked dereference, so their run always succeeds with the two steps applied |
| LocalPlaybackReachability.RunSeekCompletedThenPlay | mobile/src/main/java/never/ending/splendor/app/playback/LocalPlayback.kt:145-198 | a seek completion whose `!!` finds a decoder, then `play`, run without failing, with the two steps applied |
| LocalPlaybackReachability.ApplySeekCompleted | mobile/src/main/java/never/ending/splendor/app/playback/LocalPlayback.kt:341-351 | a seek completion outside BUFFERING, or with an active decoder, is the `onSeekComplete` step |
| LocalPlaybackReachability.ApplyPlay | mobile/src/main/java/never/ending/splendor/app/playback/LocalPlayback.kt:145-198 | `play` always succeeds as the `play` step |
| LocalPlaybackReachability.RunAppend | mobile/src/main/java/never/ending/splendor/app/playback/LocalPlayback.kt:113-392 | running two sequences one after the other is running their concatenation, by induction on the first |
| LocalPlaybackReachability.RunCons | mobile/src/main/java/never/ending/splendor/app/playback/LocalPlayback.kt:113-392 | a run whose first stimulus succeeds continues from the engine that stimulus leads to |

## Left out

- Decoding, prepare timing, wake mode, listener registration and the host
  decoder's own state machine are host internals. The decoder is a record of
  what the engine asked of it. Calls the real decoder would reject in a wrong
  state are not modelled.
- The host moves a playing decoder's position on its own. That position does
  not advance in the model. The host moves the decoder in two other places,
  and both are modelled:
  - a completed seek leaves the active decoder at the position
    `onSeekComplete` reports, and that position is a parameter;
  - at the end of media, `Engine.Finish` stops the finished decoder and
    starts its linked successor. Runs and scenarios apply it before
    `onCompletion`.
- The music catalog lookup is outside the core. The source of a media id is a
  parameter. The code dereferences a missing track with `!!` (lines 124 and 168)
  rather than reporting an error, so an unresolvable media id is not modelled.
- A null media id in a queue item is not modelled (the `!!` at lines 122 and
  166), so media ids are strings and the current id is an optional string.
- Concurrency and `@Volatile` are not modelled. The engine is used from one
  thread, and host events arrive one at a time between commands, in any order.
- Volumes are the two levels the engine sets (0.2 and 1.0), kept as a duck or
  normal setting, because floating point is not modelled.
- Logging is left out.
- The noisy-audio receiver's `onReceive` (lines 72-84) sends a pause intent to
  the service, which is outside the core. Only the registration flag is
  modelled.
- The Wi-Fi lock is a count of acquisitions, because the host lock is
  reference-counted. `isHeld` is a positive count.
- LocalPlaybackClass.LocalPlayback.SetState: the `state` setter of the interface
  takes any state, so it does not promise to keep the invariant. A caller can
  set BUFFERING or PLAYING without an active decoder.
- LocalPlaybackClass.LocalPlayback.Start: `start` does nothing, so the method
  has no contract.
- The host state vocabulary has more codes than the five the engine sets
  (ERROR 7, CONNECTING 8 and others). The `state` setter would accept them,
  but `PlaybackState` holds only the five, so those codes are not modelled.
- `setCurrentMediaId` of the callback is part of the sink's event type, but this
  engine never calls it.
