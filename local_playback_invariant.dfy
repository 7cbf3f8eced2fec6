/** The engine invariant `Engine.Valid` holds initially and every command and
    event keeps it: both slots are created together, the active reference
    names a decoder, no decoder is its own successor, BUFFERING and PLAYING
    have an active decoder, and the Wi-Fi lock is held at most once and only
    with an active decoder. */
module LocalPlaybackInvariant {
  import opened PlaybackContract
  import opened MediaPlayers
  import opened LocalPlaybackEngine

  /** Relaxing releases the lock completely; releasing the decoder is only
      done outside BUFFERING and PLAYING, as `stop` does. */
  lemma RelaxResourcesKeepsValid(e: Engine, releaseMediaPlayer: bool)
    requires e.Valid()
    requires releaseMediaPlayer ==> e.state != Buffering && e.state != Playing
    ensures e.RelaxResources(releaseMediaPlayer).Valid()
    ensures e.RelaxResources(releaseMediaPlayer).wifiLockCount == 0
  {
  }

  lemma PauseKeepsValid(e: Engine, abandonGranted: bool)
    requires e.Valid()
    ensures e.Pause(abandonGranted).after.Valid()
  {
    if e.state == Playing {
      StopPlayingKeepsValid(e, abandonGranted);
    }
  }

  lemma StopPlayingKeepsValid(e: Engine, abandonGranted: bool)
    requires e.Valid()
    ensures e.StopPlaying(abandonGranted).Valid()
  {
    var e0 := if e.HasActive() && e.Active().playing
      then e.WithActive(e.Active().(playing := false)).(currentPosition := e.Active().position)
      else e;
    assert e0.Valid();
    RelaxResourcesKeepsValid(e0, false);
  }

  lemma ConfigKeepsValid(e: Engine)
    requires e.Valid() && (e.audioFocus == NoFocusCanDuck ==> e.HasActive())
    ensures e.ConfigMediaPlayerState().after.Valid()
  {
    if e.audioFocus == NoFocusNoDuck {
      PauseKeepsValid(e, false);
    } else {
      ApplyFocusVolumeKeepsValid(e);
      ResumeIfPendingKeepsValid(e.ApplyFocusVolume());
    }
  }

  lemma ApplyFocusVolumeKeepsValid(e: Engine)
    requires e.Valid() && (e.audioFocus == NoFocusCanDuck ==> e.HasActive())
    ensures e.ApplyFocusVolume().Valid()
  {
  }

  /** A resume either starts or seeks the active decoder; both leave it
      active, as BUFFERING and PLAYING need. */
  lemma ResumeIfPendingKeepsValid(e: Engine)
    requires e.Valid()
    ensures e.ResumeIfPending().Valid()
  {
  }

  lemma StopKeepsValid(e: Engine, notifyListeners: bool, abandonGranted: bool)
    requires e.Valid()
    ensures e.Stop(notifyListeners, abandonGranted).after.Valid()
  {
  }

  /** Whichever path `play` takes, the invariant holds afterwards; on the
      restart path the lock is held exactly when the source was assigned. */
  lemma PlayKeepsValid(e: Engine, mediaId: string, source: string, focusGranted: bool,
                       sourceFails: bool, ioMessage: Option<string>)
    requires e.Valid()
    ensures e.Play(mediaId, source, focusGranted, sourceFails, ioMessage).after.Valid()
    ensures !e.Resumes(mediaId) ==>
      e.Play(mediaId, source, focusGranted, sourceFails, ioMessage).after.wifiLockCount == if sourceFails then 0 else 1
  {
    var b := e.BeginPlay(mediaId, focusGranted);
    assert b.Valid();
    if e.state == Paused && Some(mediaId) == e.currentMediaId && b.HasActive() {
      ConfigKeepsValid(b);
    } else {
      RestartKeepsValid(b, source, sourceFails, ioMessage);
    }
  }

  lemma RestartKeepsValid(e: Engine, source: string, sourceFails: bool, ioMessage: Option<string>)
    requires e.Valid()
    ensures e.Restart(source, sourceFails, ioMessage).after.Valid()
    ensures e.Restart(source, sourceFails, ioMessage).after.wifiLockCount == if sourceFails then 0 else 1
  {
    ReloadKeepsValid(e);
  }

  /** Reloading releases the lock and creates both decoders. */
  lemma ReloadKeepsValid(e: Engine)
    requires e.Valid()
    ensures e.Reload().Valid() && e.Reload().wifiLockCount == 0
  {
    RelaxResourcesKeepsValid(e.(state := Stopped), false);
  }

  lemma PlayNextKeepsValid(e: Engine, mediaId: string, source: string, sourceFails: bool,
                           ioMessage: Option<string>)
    requires e.Valid() && e.players.Get(e.players.NextSlot()).Some?
    ensures e.PlayNext(mediaId, source, sourceFails, ioMessage).after.Valid()
  {
  }

  lemma SeekToKeepsValid(e: Engine, position: int)
    requires e.Valid()
    ensures e.SeekTo(position).after.Valid()
  {
  }

  /** A valid engine in BUFFERING has a live decoder to start, so
      `onSeekComplete` is always defined on it. */
  lemma OnSeekCompleteKeepsValid(e: Engine, reportedPosition: int)
    requires e.Valid()
    ensures e.state == Buffering ==> e.HasActive()
    ensures e.OnSeekComplete(reportedPosition).after.Valid()
  {
  }

  /** The hand-off hands the active reference to the other slot, which holds a
      decoder because the slots are created together. */
  lemma OnCompletionKeepsValid(e: Engine)
    requires e.Valid() && (e.swapping ==> e.HasActive())
    ensures e.OnCompletion().after.Valid()
  {
  }

  /** The host finishing the active decoder only changes which decoders
      play. */
  lemma FinishKeepsValid(e: Engine)
    requires e.Valid()
    ensures e.Finish().Valid()
    ensures e.Finish().HasActive() == e.HasActive()
  {
  }

  /** Linking the successor never makes a decoder its own successor. */
  lemma OnPreparedKeepsValid(e: Engine)
    requires e.Valid() && (e.swapping ==> e.HasActive())
    requires !e.swapping && e.audioFocus == NoFocusCanDuck ==> e.HasActive()
    ensures e.OnPrepared().after.Valid()
  {
    if !e.swapping {
      ConfigKeepsValid(e);
    }
  }

  lemma OnAudioFocusChangeKeepsValid(e: Engine, focusChange: int)
    requires e.Valid()
    requires FocusAfterChange(focusChange, e.audioFocus) == NoFocusCanDuck ==> e.HasActive()
    ensures e.OnAudioFocusChange(focusChange).after.Valid()
  {
    var n := e.NoteFocusChange(focusChange);
    assert n.Valid();
    ConfigKeepsValid(n);
  }
}
