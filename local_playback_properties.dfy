/** What each command and event of the local playback engine does, stated
    over the functions of LocalPlaybackEngine and proved for every engine that
    satisfies the invariant. */
module LocalPlaybackProperties {
  import opened PlaybackContract
  import opened MediaPlayers
  import opened LocalPlaybackEngine

  // ---- play -------------------------------------------------------------

  /** A media id other than the current one is adopted with the position back
      at zero, and the engine restarts from BUFFERING. */
  lemma PlayNewMediaRestartsAtZero(e: Engine, mediaId: string, source: string, focusGranted: bool,
                                   sourceFails: bool, ioMessage: Option<string>)
    requires Some(mediaId) != e.currentMediaId
    ensures var r := e.Play(mediaId, source, focusGranted, sourceFails, ioMessage);
      r.after.currentPosition == 0 && r.after.currentMediaId == Some(mediaId) &&
      r.after.state == Buffering
  {
  }

  /** Resuming the same media while PAUSED with a live decoder is focus
      reconciliation only: the position, the ids and the slots stay, the
      active decoder keeps its source, its prepare state and its position,
      and only the current state is reported. */
  lemma PlaySameMediaWhilePausedOnlyReconciles(e: Engine, mediaId: string, source: string,
                                               focusGranted: bool, sourceFails: bool,
                                               ioMessage: Option<string>)
    requires e.Valid() && e.Resumes(mediaId)
    ensures var r := e.Play(mediaId, source, focusGranted, sourceFails, ioMessage);
      r == e.BeginPlay(mediaId, focusGranted).ConfigMediaPlayerState() &&
      r.emitted == [StatusChanged(r.after.state)] &&
      r.after.currentPosition == e.currentPosition && r.after.currentMediaId == e.currentMediaId &&
      r.after.nextMediaId == e.nextMediaId && r.after.wifiLockCount == e.wifiLockCount &&
      r.after.players.active == e.players.active && r.after.HasActive() &&
      r.after.players.Get(e.players.NextSlot()) == e.players.Get(e.players.NextSlot()) &&
      r.after.Active().source == e.Active().source &&
      r.after.Active().preparing == e.Active().preparing &&
      r.after.Active().position == e.Active().position &&
      r.after.Active().released == e.Active().released
  {
    var b := e.BeginPlay(mediaId, focusGranted);
    assert b.players == e.players && b.state == Paused;
    ConfigKeepsDecoderSetup(b);
  }

  /** The restart path of `play`: no hand-off armed, a resume pending,
      BUFFERING, both decoders created or reset; then either the active
      decoder has the source and is preparing, the lock is held once and
      BUFFERING is reported once, or the source failed, the failure is
      reported, nothing is prepared and the lock is not held. */
  lemma PlayRestart(e: Engine, mediaId: string, source: string, focusGranted: bool,
                    sourceFails: bool, ioMessage: Option<string>)
    requires e.Valid() && !e.Resumes(mediaId)
    ensures var r := e.Play(mediaId, source, focusGranted, sourceFails, ioMessage);
      var s := r.after.players.active.value;
      !r.after.swapping && r.after.playOnFocusGain && r.after.state == Buffering &&
      r.after.audioNoisyReceiverRegistered &&
      r.after.audioFocus == e.TryToGetAudioFocus(focusGranted).audioFocus &&
      r.after.players.active == (if e.players.active.None? then Some(A) else e.players.active) &&
      r.after.players.Get(s.Other()) == Some(CreateMediaPlayer(e.players.Get(s.Other()))) &&
      (!sourceFails ==>
        r.emitted == [StatusChanged(Buffering)] && r.after.wifiLockCount == 1 &&
        r.after.Active() == CreateMediaPlayer(e.players.Get(s)).(source := Some(source), preparing := true)) &&
      (sourceFails ==>
        r.emitted == [Error(ioMessage)] && r.after.wifiLockCount == 0 &&
        r.after.Active() == CreateMediaPlayer(e.players.Get(s)))
  {
    var b := e.BeginPlay(mediaId, focusGranted);
    assert b.players == e.players && !b.swapping && b.playOnFocusGain && b.audioNoisyReceiverRegistered;
    assert b.audioFocus == e.TryToGetAudioFocus(focusGranted).audioFocus;
    RestartPrepares(b, source, sourceFails, ioMessage);
    RestartSlots(b.players, source, sourceFails);
  }

  /** The restart path on its own: only the lock, the state and the decoders
      change; the slots are created or reset, and the active one is given the
      source and prepared unless assigning the source fails. */
  lemma RestartPrepares(e: Engine, source: string, sourceFails: bool, ioMessage: Option<string>)
    requires e.Valid()
    ensures var r := e.Restart(source, sourceFails, ioMessage);
      var p := e.players.CreateIfNeeded();
      r.after == e.(state := Buffering, wifiLockCount := r.after.wifiLockCount, players := r.after.players) &&
      r.after.players ==
        if sourceFails then p else p.SetActive(p.Active().(source := Some(source), preparing := true))
  {
    var relaxed := e.(state := Stopped).RelaxResources(false);
    assert relaxed == e.(state := Stopped, wifiLockCount := 0);
  }

  /** The slots after a restart: the active reference defaults to slot A,
      both decoders are created or reset, and the active one is given the
      source and prepared unless assigning it fails. */
  lemma RestartSlots(players: Players, source: string, sourceFails: bool)
    requires players.Valid()
    ensures var p := players.CreateIfNeeded();
      var q := if sourceFails then p else p.SetActive(p.Active().(source := Some(source), preparing := true));
      var s := q.active.value;
      q.active == (if players.active.None? then Some(A) else players.active) && q.HasActive() &&
      q.Get(s.Other()) == Some(CreateMediaPlayer(players.Get(s.Other()))) &&
      q.Active() ==
        if sourceFails then CreateMediaPlayer(players.Get(s))
        else CreateMediaPlayer(players.Get(s)).(source := Some(source), preparing := true)
  {
  }

  /** After `stop` with slot A active, `play` of another media makes the
      released decoder active again: `stop` drops the active reference but
      leaves the slots holding the released decoder, and the restart path
      only resets it. */
  lemma PlayAfterStopReusesReleasedDecoder(e: Engine, notifyListeners: bool, abandonGranted: bool,
                                           mediaId: string, source: string, focusGranted: bool)
    requires e.Valid() && e.players.active == Some(A) && Some(mediaId) != e.currentMediaId
    ensures var stopped := e.Stop(notifyListeners, abandonGranted).after;
      var r := stopped.Play(mediaId, source, focusGranted, false, None);
      r.after.players.active == Some(A) && r.after.Active().released
  {
    var stopped := e.Stop(notifyListeners, abandonGranted).after;
    StopReleasesActiveDecoder(e, notifyListeners, abandonGranted);
    assert stopped.players.active.None? && stopped.players.a.Some? && stopped.players.a.value.released;
    PlayRestart(stopped, mediaId, source, focusGranted, false, None);
  }

  // ---- playNext ---------------------------------------------------------

  /** `playNext` arms a hand-off on the slot that is not active: only that
      slot's decoder gets the source (unless assigning it fails) and a
      prepare; the pending id is recorded only for a different media id; a
      failure is reported; nothing else changes. */
  lemma PlayNextArmsOtherSlot(e: Engine, mediaId: string, source: string, sourceFails: bool,
                              ioMessage: Option<string>)
    requires e.players.Get(e.players.NextSlot()).Some?
    ensures var r := e.PlayNext(mediaId, source, sourceFails, ioMessage);
      var next := e.players.NextSlot();
      var d := e.players.Get(next).value;
      (e.players.active.Some? ==> next != e.players.active.value) &&
      r.after.players.Get(next) ==
        Some(d.(source := if sourceFails then d.source else Some(source), preparing := true)) &&
      r.after.players.Get(next.Other()) == e.players.Get(next.Other()) &&
      r.after.players.active == e.players.active &&
      r.after.nextMediaId == (if Some(mediaId) != e.currentMediaId then Some(mediaId) else e.nextMediaId) &&
      r.after == e.(nextMediaId := r.after.nextMediaId, swapping := true, players := r.after.players)
  {
  }

  // ---- onPrepared and onCompletion -----------------------------------------

  /** `onPrepared` during a hand-off only links the armed decoder as the
      active decoder's successor, and reports nothing. */
  lemma PreparedWhileSwappingLinksSuccessor(e: Engine)
    requires e.swapping && e.HasActive()
    ensures var r := e.OnPrepared();
      r.emitted == [] &&
      r.after == e.(players := e.players.SetActive(e.Active().(successor := Some(e.players.active.value.Other()))))
  {
  }

  /** `onPrepared` without a hand-off is focus reconciliation. */
  lemma PreparedOtherwiseReconciles(e: Engine)
    requires !e.swapping && (e.audioFocus == NoFocusCanDuck ==> e.HasActive())
    ensures e.OnPrepared() == e.ConfigMediaPlayerState()
  {
  }

  /** `onCompletion` during a hand-off: the position restarts, the pending id
      becomes current, the other slot becomes active, the old decoder is
      reset, the hand-off is over, and the status is reported before the
      completion. */
  lemma CompletionSwapsDecoders(e: Engine)
    requires e.swapping && e.HasActive()
    ensures var r := e.OnCompletion();
      var was := e.players.active.value;
      r.after.currentPosition == 0 && r.after.currentMediaId == e.nextMediaId &&
      r.after.players.active == Some(was.Other()) && !r.after.swapping &&
      r.after.players.Get(was) == Some(Reset(e.Active())) &&
      r.after.players.Get(was.Other()) == e.players.Get(was.Other()) &&
      r.emitted == [StatusChanged(e.state), Completion] &&
      r.after == e.(currentPosition := 0, currentMediaId := e.nextMediaId, swapping := false,
                    players := r.after.players)
  {
  }

  /** `onCompletion` without a hand-off only reports the completion. */
  lemma CompletionWithoutSwapOnlyReports(e: Engine)
    requires !e.swapping
    ensures e.OnCompletion() == Step(e, [Completion])
  {
  }

  /** The active decoder plays to the end during a hand-off, and the host
      delivers `onCompletion`: the armed decoder becomes active and plays
      exactly when it had been linked as successor (or already played); the
      finished decoder is reset; the state reported is the one held before,
      so a completion that arrives before the armed decoder was prepared
      leaves the engine in its old state with nothing playing. */
  lemma FinishedHandOffContinuesWithSuccessor(e: Engine)
    requires e.swapping && e.HasActive() && e.players.Get(e.players.active.value.Other()).Some?
    ensures var was := e.players.active.value;
      var next := e.players.Get(was.Other()).value;
      var linked := e.Active().successor == Some(was.Other());
      var r := e.Finish().OnCompletion();
      r.after.players.active == Some(was.Other()) && r.after.HasActive() &&
      r.after.Active() == next.(playing := linked || next.playing) &&
      r.after.players.Get(was) == Some(Reset(e.Active())) &&
      r.after.state == e.state && r.emitted == [StatusChanged(e.state), Completion] &&
      (r.after.IsPlaying() <==> e.playOnFocusGain || linked || next.playing)
  {
  }

  /** The active decoder plays to the end with no hand-off armed: it stops,
      the state is kept, and only the completion is reported. */
  lemma FinishedWithoutHandOffStops(e: Engine)
    requires !e.swapping && e.HasActive()
    ensures var r := e.Finish().OnCompletion();
      r.emitted == [Completion] && r.after.state == e.state &&
      r.after.players.active == e.players.active && r.after.HasActive() &&
      !r.after.Active().playing &&
      (r.after.IsPlaying() <==> e.playOnFocusGain)
  {
  }

  // ---- pause ------------------------------------------------------------

  /** `pause` from PLAYING: a playing decoder is paused and its position
      captured, the lock is released and focus given up (lost only if the
      host grants the abandon). */
  lemma PauseFromPlaying(e: Engine, abandonGranted: bool)
    requires e.Valid() && e.state == Playing
    ensures var r := e.Pause(abandonGranted);
      var decoding := e.HasActive() && e.Active().playing;
      r.after.currentPosition == (if decoding then e.Active().position else e.currentPosition) &&
      r.after.players == (if decoding then e.players.SetActive(e.Active().(playing := false)) else e.players) &&
      r.after.wifiLockCount == 0 &&
      r.after.audioFocus == e.GiveUpAudioFocus(abandonGranted).audioFocus &&
      r.after == e.(state := Paused, audioNoisyReceiverRegistered := false, currentPosition := r.after.currentPosition,
                    players := r.after.players, wifiLockCount := 0, audioFocus := r.after.audioFocus)
  {
  }

  /** `pause` from any other state only sets PAUSED and unregisters the
      noisy receiver: the decoder, the lock and the focus are untouched. */
  lemma PauseOtherwise(e: Engine, abandonGranted: bool)
    requires e.state != Playing
    ensures e.Pause(abandonGranted) ==
      Step(e.(state := Paused, audioNoisyReceiverRegistered := false), [StatusChanged(Paused)])
  {
  }

  // ---- seekTo and onSeekComplete -------------------------------------------

  /** `seekTo` without a decoder only stores the position and reports nothing. */
  lemma SeekWithoutDecoderStoresPosition(e: Engine, position: int)
    requires !e.HasActive()
    ensures e.SeekTo(position) == Step(e.(currentPosition := position), [])
  {
  }

  /** `seekTo` with a decoder asks it to seek, goes to BUFFERING exactly when
      the decoder was playing, and reports the state once. */
  lemma SeekWithDecoder(e: Engine, position: int)
    requires e.HasActive()
    ensures var r := e.SeekTo(position);
      r.after.state == (if e.Active().playing then Buffering else e.state) &&
      r.emitted == [StatusChanged(r.after.state)] &&
      r.after == e.(state := r.after.state,
                    players := e.players.SetActive(e.Active().(seekTarget := Some(position))))
  {
  }

  /** `onSeekComplete` stores the reported position, where the active
      decoder now stands; from BUFFERING it starts the decoder and goes to
      PLAYING; any other state is kept. */
  lemma SeekCompleteResumes(e: Engine, reportedPosition: int)
    requires e.Valid()
    ensures var r := e.OnSeekComplete(reportedPosition);
      (e.state == Buffering ==>
        r.after == e.(currentPosition := reportedPosition, state := Playing,
                      players := e.players.SetActive(e.Active().(position := reportedPosition, playing := true)))) &&
      (e.state != Buffering ==>
        r.after == e.(currentPosition := reportedPosition,
                      players := if e.HasActive() then e.players.SetActive(e.Active().(position := reportedPosition))
                                 else e.players))
  {
  }

  // ---- audio focus ---------------------------------------------------------

  /** The focus-change mapping: GAIN gives FOCUSED, LOSS and LOSS_TRANSIENT
      give no focus without ducking, LOSS_TRANSIENT_CAN_DUCK gives ducking,
      any other code keeps the focus; a resume is armed only by a
      non-duckable loss while PLAYING; nothing else changes. */
  lemma FocusChangeMapping(e: Engine, focusChange: int)
    ensures var n := e.NoteFocusChange(focusChange);
      (focusChange == AudioFocusGain ==> n.audioFocus == Focused) &&
      (focusChange == AudioFocusLoss || focusChange == AudioFocusLossTransient ==> n.audioFocus == NoFocusNoDuck) &&
      (focusChange == AudioFocusLossTransientCanDuck ==> n.audioFocus == NoFocusCanDuck) &&
      (focusChange !in {AudioFocusGain, AudioFocusLoss, AudioFocusLossTransient, AudioFocusLossTransientCanDuck} ==>
        n.audioFocus == e.audioFocus) &&
      n.playOnFocusGain == (e.playOnFocusGain ||
        (e.state == Playing && (focusChange == AudioFocusLoss || focusChange == AudioFocusLossTransient))) &&
      n == e.(audioFocus := n.audioFocus, playOnFocusGain := n.playOnFocusGain)
  {
  }

  /** What the focus reconciliation leaves alone: the focus, the active
      reference, the ids, the hand-off flag, the decoder in the next slot, and
      the source, prepare state, position and release of the active decoder. */
  predicate SameSetup(e: Engine, f: Engine)
  {
    f.audioFocus == e.audioFocus && f.players.active == e.players.active &&
    f.currentMediaId == e.currentMediaId && f.nextMediaId == e.nextMediaId &&
    f.swapping == e.swapping && f.HasActive() == e.HasActive() &&
    f.players.Get(e.players.NextSlot()) == e.players.Get(e.players.NextSlot()) &&
    (e.HasActive() ==>
      f.Active().source == e.Active().source && f.Active().preparing == e.Active().preparing &&
      f.Active().position == e.Active().position && f.Active().released == e.Active().released)
  }

  lemma VolumeKeepsSetup(e: Engine)
    requires e.audioFocus != NoFocusNoDuck
    requires e.audioFocus == NoFocusCanDuck ==> e.HasActive()
    ensures SameSetup(e, e.ApplyFocusVolume())
    ensures var f := e.ApplyFocusVolume();
      f.state == e.state && f.playOnFocusGain == e.playOnFocusGain &&
      f.currentPosition == e.currentPosition && f.wifiLockCount == e.wifiLockCount &&
      (e.HasActive() ==> f.Active().playing == e.Active().playing)
  {
  }

  lemma ResumeKeepsSetup(e: Engine)
    ensures SameSetup(e, e.ResumeIfPending())
    ensures var f := e.ResumeIfPending();
      f.currentPosition == e.currentPosition && f.wifiLockCount == e.wifiLockCount
  {
  }

  lemma PauseKeepsSetup(e: Engine)
    requires e.audioFocus != Focused
    ensures SameSetup(e, e.Pause(false).after)
  {
  }

  /** The reconciliation never changes the focus, the active reference, the
      ids, the hand-off flag, or what the active decoder was given; without a
      pause it keeps the stored position and the lock too. */
  lemma {:induction false} ConfigKeepsDecoderSetup(e: Engine)
    requires e.Valid() && (e.audioFocus == NoFocusCanDuck ==> e.HasActive())
    ensures SameSetup(e, e.ConfigMediaPlayerState().after)
    ensures var r := e.ConfigMediaPlayerState();
      (e.audioFocus != NoFocusNoDuck || e.state != Playing ==>
        r.after.currentPosition == e.currentPosition && r.after.wifiLockCount == e.wifiLockCount)
  {
    if e.audioFocus == NoFocusNoDuck {
      if e.state == Playing {
        PauseKeepsSetup(e);
      }
    } else {
      var v := e.ApplyFocusVolume();
      VolumeKeepsSetup(e);
      ResumeKeepsSetup(v);
      assert v.players.NextSlot() == e.players.NextSlot();
    }
  }

  /** Reconciliation without focus: PLAYING is paused (and PAUSED reported
      twice, by `pause` and then by the reconciliation); any other state is
      only reported. */
  lemma ConfigWithoutFocus(e: Engine)
    requires e.audioFocus == NoFocusNoDuck
    ensures var r := e.ConfigMediaPlayerState();
      (e.state == Playing ==>
        r.after == e.Pause(false).after && r.emitted == [StatusChanged(Paused), StatusChanged(Paused)]) &&
      (e.state != Playing ==> r == Step(e, [StatusChanged(e.state)]))
  {
  }

  /** Reconciliation with focus or ducking: the volume follows the focus; a
      pending resume on a stopped decoder starts it (PLAYING) when it stands
      at the stored position and otherwise seeks there (BUFFERING); the
      pending resume is then cleared; without one the state is kept. */
  lemma ConfigWithFocus(e: Engine)
    requires e.audioFocus != NoFocusNoDuck
    requires e.audioFocus == NoFocusCanDuck ==> e.HasActive()
    ensures var r := e.ConfigMediaPlayerState();
      var volume := if e.audioFocus == Focused then Normal else Duck;
      r.emitted == [StatusChanged(r.after.state)] &&
      (e.HasActive() ==> r.after.Active().volume == volume) &&
      (e.HasActive() ==> (r.after.Active().volume.Percent() == 100 <==> e.audioFocus == Focused)) &&
      (e.playOnFocusGain ==> !r.after.playOnFocusGain) &&
      (e.playOnFocusGain && e.HasActive() && !e.Active().playing ==>
        if e.currentPosition == e.Active().position
        then r.after.state == Playing && r.after.Active() == e.Active().(volume := volume, playing := true)
        else r.after.state == Buffering &&
             r.after.Active() == e.Active().(volume := volume, seekTarget := Some(e.currentPosition))) &&
      (!(e.playOnFocusGain && e.HasActive() && !e.Active().playing) ==>
        r.after.state == e.state && (e.HasActive() ==> r.after.Active().playing == e.Active().playing))
  {
  }

  /** A non-duckable focus loss while PLAYING pauses the decoder at its
      position and arms a resume; regaining full focus then starts the same
      decoder again from that position, without a new `play`. */
  lemma {:induction false} FocusLossThenRegainResumes(e: Engine, loss: int)
    requires e.Valid() && e.state == Playing && e.HasActive() && e.Active().playing
    requires loss == AudioFocusLoss || loss == AudioFocusLossTransient
    ensures var lost := e.OnAudioFocusChange(loss).after;
      lost.state == Paused && lost.playOnFocusGain && lost.audioFocus == NoFocusNoDuck &&
      lost.HasActive() && !lost.Active().playing && lost.currentPosition == e.Active().position &&
      var regained := lost.OnAudioFocusChange(AudioFocusGain).after;
      regained.state == Playing && regained.Active().playing && !regained.playOnFocusGain &&
      regained.currentPosition == e.Active().position && regained.audioFocus == Focused
  {
    var n := e.NoteFocusChange(loss);
    FocusChangeMapping(e, loss);
    assert n.audioFocus == NoFocusNoDuck && n.state == Playing && n.playOnFocusGain;
    ConfigWithoutFocus(n);
    PauseFromPlaying(n, false);
    var lost := e.OnAudioFocusChange(loss).after;
    assert lost == n.Pause(false).after;
    var g := lost.NoteFocusChange(AudioFocusGain);
    FocusChangeMapping(lost, AudioFocusGain);
    assert g.audioFocus == Focused && g.playOnFocusGain && g.HasActive() && !g.Active().playing;
    ConfigWithFocus(g);
  }

  // ---- stop and relaxResources -----------------------------------------------

  /** `stop`: STOPPED, reported only when listeners are notified, the stream
      position snapshotted, no active decoder (the one that was active is
      reset and released in its slot), the lock not held, the noisy receiver
      unregistered, and focus lost only if the host grants the abandon. */
  lemma StopReleasesActiveDecoder(e: Engine, notifyListeners: bool, abandonGranted: bool)
    requires e.Valid()
    ensures var r := e.Stop(notifyListeners, abandonGranted);
      StopContract(notifyListeners, r.after.state, r.emitted) &&
      r.after.currentPosition == e.CurrentStreamPosition() &&
      r.after.players.active.None? && r.after.wifiLockCount == 0 &&
      !r.after.audioNoisyReceiverRegistered &&
      r.after.audioFocus == (if e.audioFocus == Focused && abandonGranted then NoFocusNoDuck else e.audioFocus) &&
      (e.HasActive() ==>
        r.after.players.Get(e.players.active.value) == Some(Reset(e.Active()).(released := true)) &&
        r.after.players.Get(e.players.active.value.Other()) == e.players.Get(e.players.active.value.Other())) &&
      (!e.HasActive() ==> r.after.players.a == e.players.a && r.after.players.b == e.players.b) &&
      r.after.currentMediaId == e.currentMediaId && r.after.nextMediaId == e.nextMediaId &&
      r.after.swapping == e.swapping && r.after.playOnFocusGain == e.playOnFocusGain
  {
  }

  /** `stop` leaves a pending resume armed, so the engine reports itself as
      playing while STOPPED with no active decoder. */
  lemma StopKeepsPendingResume(e: Engine, notifyListeners: bool, abandonGranted: bool)
    requires e.Valid() && e.playOnFocusGain
    ensures var r := e.Stop(notifyListeners, abandonGranted).after;
      r.state == Stopped && !r.HasActive() && r.IsPlaying()
  {
    StopReleasesActiveDecoder(e, notifyListeners, abandonGranted);
  }

  /** `pause` while BUFFERING only records PAUSED: the resume that `play`
      armed stays pending, so when the decoder is prepared it starts playing
      and the engine goes to PLAYING after all. */
  lemma {:induction false} PauseWhileBufferingIsOverriddenByPrepared(e: Engine, mediaId: string, source: string,
                                                                     abandonGranted: bool)
    requires e.Valid() && Some(mediaId) != e.currentMediaId
    ensures var played := e.Play(mediaId, source, true, false, None).after;
      var paused := played.Pause(abandonGranted).after;
      played.state == Buffering && paused.state == Paused &&
      !paused.swapping && paused.audioFocus == Focused &&
      var prepared := paused.OnPrepared().after;
      prepared.state == Playing && prepared.HasActive() && prepared.Active().playing
  {
    var played := e.Play(mediaId, source, true, false, None).after;
    PlayRestart(e, mediaId, source, true, false, None);
    PlayNewMediaRestartsAtZero(e, mediaId, source, true, false, None);
    assert played.audioFocus == Focused && played.playOnFocusGain;
    assert played.Active().position == 0 && !played.Active().playing && played.currentPosition == 0;
    PauseOtherwise(played, abandonGranted);
    var paused := played.Pause(abandonGranted).after;
    assert paused == played.(state := Paused, audioNoisyReceiverRegistered := false);
    PreparedOtherwiseReconciles(paused);
    ConfigWithFocus(paused);
  }

  /** Relaxing resources twice is relaxing them once: the lock is released
      only while held, and a dropped decoder is not released again. */
  lemma {:induction false} RelaxResourcesIdempotent(e: Engine, releaseMediaPlayer: bool)
    requires e.Valid() && (releaseMediaPlayer ==> e.state != Buffering && e.state != Playing)
    ensures e.RelaxResources(releaseMediaPlayer).RelaxResources(releaseMediaPlayer) ==
            e.RelaxResources(releaseMediaPlayer)
  {
    var once := e.RelaxResources(releaseMediaPlayer);
    assert once.state == e.state;
    if releaseMediaPlayer {
      assert !once.HasActive() && once.players.ReleaseActive() == once.players;
    }
  }

  /** Focus is lost on a give-up exactly when it was held and the host grants
      the abandon; asking for focus gains it exactly when it was not held and
      the host grants the request. */
  lemma FocusRequestsFollowTheHost(e: Engine, granted: bool)
    ensures (e.GiveUpAudioFocus(granted).audioFocus != e.audioFocus) <==> (e.audioFocus == Focused && granted)
    ensures (e.TryToGetAudioFocus(granted).audioFocus != e.audioFocus) <==> (e.audioFocus != Focused && granted)
    ensures e.GiveUpAudioFocus(granted) == e.(audioFocus := e.GiveUpAudioFocus(granted).audioFocus)
    ensures e.TryToGetAudioFocus(granted) == e.(audioFocus := e.TryToGetAudioFocus(granted).audioFocus)
  {
  }

  // ---- positions -----------------------------------------------------------

  /** The stream-position setter's backing field is invisible to the getter. */
  lemma StreamPositionSetterIsInvisible(e: Engine, position: int)
    ensures e.(streamPositionField := position).CurrentStreamPosition() == e.CurrentStreamPosition()
  {
  }

  // ---- the gapless scenario ------------------------------------------------

  /** Play one media with focus granted, let the decoder prepare, arm the
      next media with `playNext`, let the armed decoder prepare (which links
      it as successor), and let the first one play to the end: the next media
      is current and its decoder plays from the other slot, the hand-off is
      over, the first decoder is reset and the position is zero. */
  lemma {:induction false} GaplessHandOff(e: Engine, first: string, second: string,
                                          firstSource: string, secondSource: string)
    requires e.Valid() && Some(first) != e.currentMediaId && first != second
    ensures var played := e.Play(first, firstSource, true, false, None).after;
      var prepared := played.OnPrepared().after;
      prepared.state == Playing && prepared.players.Get(prepared.players.NextSlot()).Some? &&
      var armed := prepared.PlayNext(second, secondSource, false, None).after;
      armed.swapping && armed.HasActive() &&
      var linked := armed.OnPrepared();
      linked.emitted == [] && linked.after.swapping && linked.after.HasActive() &&
      var done := linked.after.Finish().OnCompletion();
      var was := played.players.active.value;
      done.after.currentMediaId == Some(second) && !done.after.swapping &&
      done.after.currentPosition == 0 && done.after.players.active == Some(was.Other()) &&
      done.after.players.Get(was).value.Idle() &&
      done.after.HasActive() && done.after.Active().source == Some(secondSource) &&
      done.after.Active().playing && done.after.IsPlaying() &&
      done.emitted == [StatusChanged(Playing), Completion]
  {
    var played := e.Play(first, firstSource, true, false, None).after;
    PlayRestart(e, first, firstSource, true, false, None);
    PlayNewMediaRestartsAtZero(e, first, firstSource, true, false, None);
    assert played.audioFocus == Focused && played.playOnFocusGain && !played.swapping;
    assert played.Active().position == 0 && !played.Active().playing && played.currentPosition == 0;
    var prepared := played.OnPrepared().after;
    PreparedOtherwiseReconciles(played);
    ConfigWithFocus(played);
    ConfigKeepsDecoderSetup(played);
    assert prepared.state == Playing && prepared.currentMediaId == Some(first);
    var armed := prepared.PlayNext(second, secondSource, false, None).after;
    PlayNextArmsOtherSlot(prepared, second, secondSource, false, None);
    assert armed.nextMediaId == Some(second) && armed.state == Playing;
    var was := armed.players.active.value;
    assert armed.players.Get(was.Other()).value.source == Some(secondSource);
    var linked := armed.OnPrepared().after;
    PreparedWhileSwappingLinksSuccessor(armed);
    assert linked.Active().successor == Some(was.Other());
    FinishedHandOffContinuesWithSuccessor(linked);
    CompletionSwapsDecoders(linked.Finish());
  }

  /** Arming the current media again (the guard leaves the pending id as it
      was) and letting the decoder play to the end makes the stale pending id
      current. */
  lemma {:induction false} GaplessToSameMediaAdoptsStalePendingId(e: Engine, mediaId: string, source: string)
    requires !e.swapping && e.HasActive() && e.players.Get(e.players.NextSlot()).Some?
    requires e.currentMediaId == Some(mediaId)
    ensures var armed := e.PlayNext(mediaId, source, false, None).after;
      var done := armed.Finish().OnCompletion().after;
      done.currentMediaId == e.nextMediaId
  {
    PlayNextArmsOtherSlot(e, mediaId, source, false, None);
    var armed := e.PlayNext(mediaId, source, false, None).after;
    CompletionSwapsDecoders(armed.Finish());
  }

  /** From the freshly constructed engine: play a media with focus granted,
      let it prepare, arm the same media with `playNext` and let the first
      decoder play to the end. No pending id was ever recorded, so the
      current media id becomes null while the engine keeps playing. */
  lemma {:induction false} SameMediaHandOffFromFreshEngineLosesId(mediaId: string, source: string,
                                                                  nextSource: string)
    ensures var played := InitialEngine().Play(mediaId, source, true, false, None).after;
      var prepared := played.OnPrepared().after;
      prepared.players.Get(prepared.players.NextSlot()).Some? &&
      var armed := prepared.PlayNext(mediaId, nextSource, false, None).after;
      var done := armed.Finish().OnCompletion().after;
      done.currentMediaId == None && done.state == Playing
  {
    var e := InitialEngine();
    var played := e.Play(mediaId, source, true, false, None).after;
    PlayRestart(e, mediaId, source, true, false, None);
    PlayNewMediaRestartsAtZero(e, mediaId, source, true, false, None);
    assert played.nextMediaId == None && played.audioFocus == Focused;
    assert played.Active().position == 0 && !played.Active().playing && played.currentPosition == 0;
    var prepared := played.OnPrepared().after;
    PreparedOtherwiseReconciles(played);
    ConfigWithFocus(played);
    ConfigKeepsDecoderSetup(played);
    assert prepared.nextMediaId == None && prepared.currentMediaId == Some(mediaId);
    GaplessToSameMediaAdoptsStalePendingId(prepared, mediaId, nextSource);
    var armed := prepared.PlayNext(mediaId, nextSource, false, None).after;
    PlayNextArmsOtherSlot(prepared, mediaId, nextSource, false, None);
    CompletionSwapsDecoders(armed.Finish());
  }
}
