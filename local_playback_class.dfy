/** The local playback engine as the object it is: its fields are updated in
    place, statement by statement, and each command and event is proved to
    leave the fields as the matching function of `Engine` describes and to
    make the callback calls that function lists, in that order. */
module LocalPlaybackClass {
  import opened PlaybackContract
  import opened MediaPlayers
  import opened LocalPlaybackEngine
  import opened LocalPlaybackInvariant

  class LocalPlayback {
    var state: PlaybackState
    var playOnFocusGain: bool
    var callback: Callback
    var audioNoisyReceiverRegistered: bool
    var currentPosition: int
    var currentMediaId: Option<string>
    var audioFocus: AudioFocus
    var mediaPlayerA: Option<Decoder>
    var mediaPlayerB: Option<Decoder>
    /** The active decoder reference: the slot it points at, or None for null. */
    var mediaPlayer: Option<Slot>
    var mediaPlayersSwapping: bool
    /** The acquire count of the Wi-Fi lock held by the host. */
    var wifiLockCount: nat
    var nextMediaId: Option<string>
    /** The backing field of the stream-position property. */
    var currentStreamPositionField: int
    /** Every callback call made so far, whichever sink received it. */
    ghost var notified: seq<Event>

    const supportsGapless: bool := true
    const isConnected: bool := true

    /** The object's fields as an engine value. */
    function View(): Engine
      reads this
    {
      Engine(state, playOnFocusGain, audioNoisyReceiverRegistered, currentPosition, currentMediaId,
             nextMediaId, audioFocus, Players(mediaPlayerA, mediaPlayerB, mediaPlayer),
             mediaPlayersSwapping, wifiLockCount, currentStreamPositionField)
    }

    ghost predicate Valid()
      reads this
    {
      View().Valid()
    }

    /** Since the callback was `cb0` and the log `log0`, exactly the calls `es`
        were made, in order (`Delivered` is the closed form of making them one
        at a time, `ReceiveAll`). */
    ghost predicate Sent(cb0: Callback, log0: seq<Event>, es: seq<Event>)
      reads this
    {
      notified == log0 + es && callback == Delivered(cb0, es)
    }

    constructor ()
      ensures View() == InitialEngine() && Valid()
      ensures callback == Empty && notified == []
    {
      state := NoState;
      playOnFocusGain := false;
      callback := Empty;
      audioNoisyReceiverRegistered := false;
      currentPosition := 0;
      currentMediaId := None;
      audioFocus := NoFocusNoDuck;
      mediaPlayerA := None;
      mediaPlayerB := None;
      mediaPlayer := None;
      mediaPlayersSwapping := false;
      wifiLockCount := 0;
      nextMediaId := None;
      currentStreamPositionField := 0;
      notified := [];
    }

    // ---- the decoder slots -------------------------------------------------

    function Player(s: Slot): Option<Decoder>
      reads this
    {
      if s == A then mediaPlayerA else mediaPlayerB
    }

    /** The active decoder reference is non-null: it names a slot holding a
        decoder. */
    predicate HasActivePlayer()
      reads this
    {
      mediaPlayer.Some? && Player(mediaPlayer.value).Some?
    }

    /** The decoder the active reference points at. */
    function ActivePlayer(): Decoder
      reads this
      requires HasActivePlayer()
    {
      Player(mediaPlayer.value).value
    }

    /** `nextMediaPlayer()`: B when the active reference is identical to A's
        (a null reference is identical to an empty slot A), A otherwise. */
    function NextPlayer(): (s: Slot)
      reads this
      ensures s == View().players.NextSlot()
    {
      if mediaPlayer == Some(A) || (mediaPlayer.None? && mediaPlayerA.None?) then B else A
    }

    method SetPlayer(s: Slot, d: Decoder)
      modifies this`mediaPlayerA, this`mediaPlayerB
      ensures View() == old(View()).(players := old(View()).players.Set(s, d))
      ensures callback == old(callback) && notified == old(notified)
    {
      if s == A {
        mediaPlayerA := Some(d);
      } else {
        mediaPlayerB := Some(d);
      }
    }

    // ---- the callback ------------------------------------------------------

    /** One call on the callback. */
    method Notify(e: Event)
      modifies this`callback, this`notified
      ensures View() == old(View())
      ensures Sent(old(callback), old(notified), [e])
    {
      callback := Delivered(callback, [e]);
      notified := notified + [e];
    }

    /** The callback setter. */
    method SetCallback(cb: Callback)
      modifies this`callback
      ensures View() == old(View()) && callback == cb && notified == old(notified)
    {
      callback := cb;
    }

    // ---- getters and setters -------------------------------------------------

    /** The `isPlaying` getter. */
    function IsPlaying(): (r: bool)
      reads this
      ensures IsPlayingContract(r, HasActivePlayer() && ActivePlayer().playing,
                                playOnFocusGain)
    {
      View().IsPlaying()
    }

    /** The `currentStreamPosition` getter. */
    function CurrentStreamPosition(): (r: int)
      reads this
      ensures HasActivePlayer() ==> r == ActivePlayer().position
      ensures !HasActivePlayer() ==> r == currentPosition
    {
      View().CurrentStreamPosition()
    }

    /** The `currentStreamPosition` setter: it writes the backing field, which
        the getter never reads. */
    method SetCurrentStreamPosition(position: int)
      modifies this`currentStreamPositionField
      ensures View() == old(View()).(streamPositionField := position)
      ensures CurrentStreamPosition() == old(CurrentStreamPosition())
      ensures callback == old(callback) && notified == old(notified)
    {
      currentStreamPositionField := position;
    }

    /** The `state` setter: the caller's state is taken as it is. */
    method SetState(s: PlaybackState)
      modifies this`state
      ensures View() == old(View()).(state := s)
      ensures callback == old(callback) && notified == old(notified)
    {
      state := s;
    }

    /** The `currentMediaId` setter. */
    method SetCurrentMediaId(mediaId: Option<string>)
      modifies this`currentMediaId
      ensures View() == old(View()).(currentMediaId := mediaId)
      ensures callback == old(callback) && notified == old(notified)
    {
      currentMediaId := mediaId;
    }

    method UpdateLastKnownStreamPosition()
      modifies this`currentPosition
      ensures View() == old(View()).UpdateLastKnownStreamPosition()
      ensures callback == old(callback) && notified == old(notified)
    {
      if HasActivePlayer() {
        currentPosition := ActivePlayer().position;
      }
    }

    // ---- host resources ------------------------------------------------------

    method TryToGetAudioFocus(granted: bool)
      modifies this`audioFocus
      ensures View() == old(View()).TryToGetAudioFocus(granted)
      ensures callback == old(callback) && notified == old(notified)
    {
      if audioFocus != Focused {
        if granted {
          audioFocus := Focused;
        }
      }
    }

    method GiveUpAudioFocus(granted: bool)
      modifies this`audioFocus
      ensures View() == old(View()).GiveUpAudioFocus(granted)
      ensures callback == old(callback) && notified == old(notified)
    {
      if audioFocus == Focused {
        if granted {
          audioFocus := NoFocusNoDuck;
        }
      }
    }

    method RegisterAudioNoisyReceiver()
      modifies this`audioNoisyReceiverRegistered
      ensures View() == old(View()).(audioNoisyReceiverRegistered := true)
      ensures callback == old(callback) && notified == old(notified)
    {
      if !audioNoisyReceiverRegistered {
        audioNoisyReceiverRegistered := true;
      }
    }

    method UnregisterAudioNoisyReceiver()
      modifies this`audioNoisyReceiverRegistered
      ensures View() == old(View()).(audioNoisyReceiverRegistered := false)
      ensures callback == old(callback) && notified == old(notified)
    {
      if audioNoisyReceiverRegistered {
        audioNoisyReceiverRegistered := false;
      }
    }

    method RelaxResources(releaseMediaPlayer: bool)
      modifies this`mediaPlayerA, this`mediaPlayerB, this`mediaPlayer, this`wifiLockCount
      ensures View() == old(View()).RelaxResources(releaseMediaPlayer)
      ensures callback == old(callback) && notified == old(notified)
    {
      if releaseMediaPlayer && HasActivePlayer() {
        var s := mediaPlayer.value;
        SetPlayer(s, Reset(Player(s).value).(released := true));
        mediaPlayer := None;
      }
      if wifiLockCount > 0 {
        wifiLockCount := wifiLockCount - 1;
      }
    }

    method CreateMediaPlayerIfNeeded()
      modifies this`mediaPlayerA, this`mediaPlayerB, this`mediaPlayer
      ensures View() == old(View()).(players := old(View()).players.CreateIfNeeded())
      ensures callback == old(callback) && notified == old(notified)
    {
      mediaPlayerA := Some(CreateMediaPlayer(mediaPlayerA));
      mediaPlayerB := Some(CreateMediaPlayer(mediaPlayerB));
      if mediaPlayer.None? {
        mediaPlayer := Some(A);
      }
    }

    // ---- the focus reconciliation ----------------------------------------------

    /** The volume step of `configMediaPlayerState`. */
    method ApplyFocusVolume()
      requires audioFocus == NoFocusCanDuck ==> HasActivePlayer()
      modifies this`mediaPlayerA, this`mediaPlayerB
      ensures View() == old(View()).ApplyFocusVolume()
      ensures callback == old(callback) && notified == old(notified)
    {
      if audioFocus == NoFocusCanDuck {
        SetPlayer(mediaPlayer.value, ActivePlayer().(volume := Duck));
      } else if HasActivePlayer() {
        SetPlayer(mediaPlayer.value, ActivePlayer().(volume := Normal));
      }
    }

    /** The resume step of `configMediaPlayerState`. */
    method ResumeIfPending()
      modifies this`mediaPlayerA, this`mediaPlayerB, this`state, this`playOnFocusGain
      ensures View() == old(View()).ResumeIfPending()
      ensures callback == old(callback) && notified == old(notified)
    {
      if playOnFocusGain {
        if HasActivePlayer() && !ActivePlayer().playing {
          if currentPosition == ActivePlayer().position {
            SetPlayer(mediaPlayer.value, ActivePlayer().(playing := true));
            state := Playing;
          } else {
            SetPlayer(mediaPlayer.value, ActivePlayer().(seekTarget := Some(currentPosition)));
            state := Buffering;
          }
        }
        playOnFocusGain := false;
      }
    }

    method ConfigMediaPlayerState()
      requires audioFocus == NoFocusCanDuck ==> HasActivePlayer()
      modifies this
      ensures View() == old(View()).ConfigMediaPlayerState().after
      ensures old(Valid()) ==> Valid()
      ensures Sent(old(callback), old(notified), old(View()).ConfigMediaPlayerState().emitted)
    {
      ghost var e0, log0 := View(), notified;
      if audioFocus == NoFocusNoDuck {
        if state == Playing {
          Pause(false);
          Notify(StatusChanged(state));
          assert log0 + [StatusChanged(Paused)] + [StatusChanged(Paused)] ==
                 log0 + e0.ConfigMediaPlayerState().emitted;
        } else {
          Notify(StatusChanged(state));
        }
      } else {
        ApplyFocusVolume();
        ResumeIfPending();
        Notify(StatusChanged(state));
      }
      if e0.Valid() {
        ConfigKeepsValid(e0);
      }
    }

    // ---- commands --------------------------------------------------------------

    /** `start` does nothing. */
    method Start()
    {
    }

    method Stop(notifyListeners: bool, abandonGranted: bool)
      modifies this
      ensures View() == old(View()).Stop(notifyListeners, abandonGranted).after
      ensures old(Valid()) ==> Valid()
      ensures Sent(old(callback), old(notified), old(View()).Stop(notifyListeners, abandonGranted).emitted)
    {
      ghost var e0 := View();
      state := Stopped;
      if notifyListeners {
        Notify(StatusChanged(state));
      }
      ReleaseAll(abandonGranted);
      if e0.Valid() {
        StopKeepsValid(e0, notifyListeners, abandonGranted);
      }
    }

    /** The release half of `stop`. */
    method ReleaseAll(abandonGranted: bool)
      modifies this`currentPosition, this`audioFocus, this`audioNoisyReceiverRegistered,
               this`mediaPlayerA, this`mediaPlayerB, this`mediaPlayer, this`wifiLockCount
      ensures View() == old(View()).ReleaseAll(abandonGranted)
      ensures callback == old(callback) && notified == old(notified)
    {
      currentPosition := CurrentStreamPosition();
      GiveUpAudioFocus(abandonGranted);
      UnregisterAudioNoisyReceiver();
      RelaxResources(true);
    }

    /** The opening of `play`; the answer says whether the media id changed. */
    method BeginPlay(mediaId: string, focusGranted: bool) returns (mediaHasChanged: bool)
      modifies this`mediaPlayersSwapping, this`playOnFocusGain, this`audioFocus,
               this`audioNoisyReceiverRegistered, this`currentPosition, this`currentMediaId
      ensures mediaHasChanged <==> Some(mediaId) != old(currentMediaId)
      ensures View() == old(View()).BeginPlay(mediaId, focusGranted)
      ensures callback == old(callback) && notified == old(notified)
    {
      if mediaPlayersSwapping {
        mediaPlayersSwapping := false;
      }
      playOnFocusGain := true;
      TryToGetAudioFocus(focusGranted);
      RegisterAudioNoisyReceiver();
      mediaHasChanged := Some(mediaId) != currentMediaId;
      if mediaHasChanged {
        currentPosition := 0;
        currentMediaId := Some(mediaId);
      }
    }

    /** The restart path of `play`. */
    method Restart(source: string, sourceFails: bool, ioMessage: Option<string>)
      modifies this
      ensures View() == old(View()).Restart(source, sourceFails, ioMessage).after
      ensures Sent(old(callback), old(notified), old(View()).Restart(source, sourceFails, ioMessage).emitted)
    {
      Reload();
      if sourceFails {
        Notify(Error(ioMessage));
      } else {
        SetPlayer(mediaPlayer.value, ActivePlayer().(source := Some(source), preparing := true));
        wifiLockCount := wifiLockCount + 1;
        Notify(StatusChanged(state));
      }
    }

    /** The opening of the restart path. */
    method Reload()
      modifies this`state, this`mediaPlayerA, this`mediaPlayerB, this`mediaPlayer, this`wifiLockCount
      ensures View() == old(View()).Reload()
      ensures callback == old(callback) && notified == old(notified)
    {
      state := Stopped;
      RelaxResources(false);
      CreateMediaPlayerIfNeeded();
      state := Buffering;
    }

    method Play(mediaId: string, source: string, focusGranted: bool, sourceFails: bool,
                ioMessage: Option<string>)
      modifies this
      ensures View() == old(View()).Play(mediaId, source, focusGranted, sourceFails, ioMessage).after
      ensures old(Valid()) ==> Valid()
      ensures Sent(old(callback), old(notified),
                   old(View()).Play(mediaId, source, focusGranted, sourceFails, ioMessage).emitted)
    {
      ghost var e0 := View();
      var mediaHasChanged := BeginPlay(mediaId, focusGranted);
      ghost var e1 := View();
      if state == Paused && !mediaHasChanged && HasActivePlayer() {
        assert e0.Play(mediaId, source, focusGranted, sourceFails, ioMessage) == e1.ConfigMediaPlayerState();
        ConfigMediaPlayerState();
      } else {
        assert e0.Play(mediaId, source, focusGranted, sourceFails, ioMessage) == e1.Restart(source, sourceFails, ioMessage);
        Restart(source, sourceFails, ioMessage);
      }
      if e0.Valid() {
        PlayKeepsValid(e0, mediaId, source, focusGranted, sourceFails, ioMessage);
      }
    }

    method PlayNext(mediaId: string, source: string, sourceFails: bool, ioMessage: Option<string>)
      returns (r: bool)
      requires Player(NextPlayer()).Some?
      modifies this
      ensures PlayNextContract(r, supportsGapless)
      ensures View() == old(View()).PlayNext(mediaId, source, sourceFails, ioMessage).after
      ensures old(Valid()) ==> Valid()
      ensures Sent(old(callback), old(notified), old(View()).PlayNext(mediaId, source, sourceFails, ioMessage).emitted)
    {
      ghost var e0 := View();
      var nextPlayer := NextPlayer();
      if Some(mediaId) != currentMediaId {
        nextMediaId := Some(mediaId);
      }
      ghost var e1 := View();
      LoadNext(nextPlayer, source, sourceFails, ioMessage);
      mediaPlayersSwapping := true;
      assert View() == e1.LoadNext(nextPlayer, source, sourceFails, ioMessage).after.(swapping := true);
      assert e0.PlayNext(mediaId, source, sourceFails, ioMessage).emitted ==
             e1.LoadNext(nextPlayer, source, sourceFails, ioMessage).emitted;
      if e0.Valid() {
        PlayNextKeepsValid(e0, mediaId, source, sourceFails, ioMessage);
      }
      return true;
    }

    /** The loading half of `playNext`. */
    method LoadNext(slot: Slot, source: string, sourceFails: bool, ioMessage: Option<string>)
      requires Player(slot).Some?
      modifies this`mediaPlayerA, this`mediaPlayerB, this`callback, this`notified
      ensures View() == old(View()).LoadNext(slot, source, sourceFails, ioMessage).after
      ensures Sent(old(callback), old(notified), old(View()).LoadNext(slot, source, sourceFails, ioMessage).emitted)
    {
      var d := Player(slot).value;
      if sourceFails {
        Notify(Error(ioMessage));
      } else {
        d := d.(source := Some(source));
      }
      SetPlayer(slot, d.(preparing := true));
    }

    method Pause(abandonGranted: bool)
      modifies this
      ensures View() == old(View()).Pause(abandonGranted).after
      ensures old(Valid()) ==> Valid()
      ensures Sent(old(callback), old(notified), old(View()).Pause(abandonGranted).emitted)
    {
      ghost var e0 := View();
      if state == Playing {
        StopPlaying(abandonGranted);
      }
      state := Paused;
      Notify(StatusChanged(state));
      UnregisterAudioNoisyReceiver();
      if e0.Valid() {
        PauseKeepsValid(e0, abandonGranted);
      }
    }

    /** The PLAYING half of `pause`. */
    method StopPlaying(abandonGranted: bool)
      modifies this`mediaPlayerA, this`mediaPlayerB, this`mediaPlayer, this`wifiLockCount,
               this`currentPosition, this`audioFocus
      ensures View() == old(View()).StopPlaying(abandonGranted)
      ensures callback == old(callback) && notified == old(notified)
    {
      if HasActivePlayer() && ActivePlayer().playing {
        SetPlayer(mediaPlayer.value, ActivePlayer().(playing := false));
        currentPosition := ActivePlayer().position;
      }
      RelaxResources(false);
      GiveUpAudioFocus(abandonGranted);
    }

    method SeekTo(position: int)
      modifies this
      ensures View() == old(View()).SeekTo(position).after
      ensures old(Valid()) ==> Valid()
      ensures Sent(old(callback), old(notified), old(View()).SeekTo(position).emitted)
    {
      ghost var e0 := View();
      if e0.Valid() {
        SeekToKeepsValid(e0, position);
      }
      if !HasActivePlayer() {
        currentPosition := position;
      } else {
        if ActivePlayer().playing {
          state := Buffering;
        }
        SetPlayer(mediaPlayer.value, ActivePlayer().(seekTarget := Some(position)));
        Notify(StatusChanged(state));
      }
    }

    // ---- host events -------------------------------------------------------------

    /** The first half of `onAudioFocusChange`. */
    method NoteFocusChange(focusChange: int)
      modifies this`audioFocus, this`playOnFocusGain
      ensures View() == old(View()).NoteFocusChange(focusChange)
      ensures callback == old(callback) && notified == old(notified)
    {
      if focusChange == AudioFocusGain {
        audioFocus := Focused;
      } else if focusChange == AudioFocusLoss || focusChange == AudioFocusLossTransient ||
                focusChange == AudioFocusLossTransientCanDuck {
        var canDuck := focusChange == AudioFocusLossTransientCanDuck;
        audioFocus := if canDuck then NoFocusCanDuck else NoFocusNoDuck;
        if state == Playing && !canDuck {
          playOnFocusGain := true;
        }
      }
    }

    method OnAudioFocusChange(focusChange: int)
      requires FocusAfterChange(focusChange, audioFocus) == NoFocusCanDuck ==> HasActivePlayer()
      modifies this
      ensures View() == old(View()).OnAudioFocusChange(focusChange).after
      ensures old(Valid()) ==> Valid()
      ensures Sent(old(callback), old(notified), old(View()).OnAudioFocusChange(focusChange).emitted)
    {
      ghost var e0 := View();
      NoteFocusChange(focusChange);
      ConfigMediaPlayerState();
      if e0.Valid() {
        OnAudioFocusChangeKeepsValid(e0, focusChange);
      }
    }

    method OnSeekComplete(reportedPosition: int)
      requires state == Buffering ==> HasActivePlayer()
      modifies this
      ensures View() == old(View()).OnSeekComplete(reportedPosition).after
      ensures old(Valid()) ==> Valid()
      ensures Sent(old(callback), old(notified), old(View()).OnSeekComplete(reportedPosition).emitted)
    {
      ghost var e0 := View();
      // The seeking decoder is the active one; it stands where it reports.
      if HasActivePlayer() {
        SetPlayer(mediaPlayer.value, ActivePlayer().(position := reportedPosition));
      }
      currentPosition := reportedPosition;
      if state == Buffering {
        SetPlayer(mediaPlayer.value, ActivePlayer().(playing := true));
        state := Playing;
      }
      Notify(StatusChanged(state));
      if e0.Valid() {
        OnSeekCompleteKeepsValid(e0, reportedPosition);
      }
    }

    method OnCompletion()
      requires mediaPlayersSwapping ==> HasActivePlayer()
      modifies this
      ensures View() == old(View()).OnCompletion().after
      ensures old(Valid()) ==> Valid()
      ensures Sent(old(callback), old(notified), old(View()).OnCompletion().emitted)
    {
      ghost var e0 := View();
      if e0.Valid() {
        OnCompletionKeepsValid(e0);
      }
      ghost var log0 := notified;
      if mediaPlayersSwapping {
        HandOff();
        Notify(StatusChanged(state));
        Notify(Completion);
        assert log0 + [StatusChanged(state)] + [Completion] == log0 + [StatusChanged(state), Completion];
      } else {
        Notify(Completion);
      }
    }

    /** The gapless hand-off of `onCompletion`. */
    method HandOff()
      requires HasActivePlayer()
      modifies this`currentPosition, this`currentMediaId, this`mediaPlayer, this`mediaPlayersSwapping,
               this`mediaPlayerA, this`mediaPlayerB
      ensures View() == old(View()).HandOff()
      ensures callback == old(callback) && notified == old(notified)
    {
      currentPosition := 0;
      currentMediaId := nextMediaId;
      var was := mediaPlayer.value;
      var finished := Player(was).value;
      mediaPlayer := Some(was.Other());
      mediaPlayersSwapping := false;
      SetPlayer(was, Reset(finished));
    }

    method OnPrepared()
      requires mediaPlayersSwapping ==> HasActivePlayer()
      requires !mediaPlayersSwapping && audioFocus == NoFocusCanDuck ==> HasActivePlayer()
      modifies this
      ensures View() == old(View()).OnPrepared().after
      ensures old(Valid()) ==> Valid()
      ensures Sent(old(callback), old(notified), old(View()).OnPrepared().emitted)
    {
      ghost var e0 := View();
      if mediaPlayersSwapping {
        var s := mediaPlayer.value;
        SetPlayer(s, ActivePlayer().(successor := Some(s.Other())));
      } else {
        ConfigMediaPlayerState();
      }
      if e0.Valid() {
        OnPreparedKeepsValid(e0);
      }
    }

    method OnError(what: int, extra: int) returns (handled: bool)
      modifies this`callback, this`notified
      ensures handled
      ensures View() == old(View()).OnError(what, extra).after
      ensures Sent(old(callback), old(notified), old(View()).OnError(what, extra).emitted)
    {
      Notify(Error(Some(DecoderErrorMessage(what, extra))));
      return true;
    }
  }
}
