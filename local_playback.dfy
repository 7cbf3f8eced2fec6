/** The local gapless playback engine: two host decoders in slots A and B, one
    of which is active, audio-focus bookkeeping, the Wi-Fi lock and the
    noisy-audio receiver, driven by commands from the media session and by
    events from the host.

    `Engine` is the value of the engine's fields and its functions are the
    specification of each command and event. The class `LocalPlayback` (module
    LocalPlaybackClass) holds the same fields, updates them step by step, and
    is proved to end in the state, and to make the callback calls, that these
    functions describe. The
    properties of the functions are proved in module LocalPlaybackProperties. */
module LocalPlaybackEngine {
  import opened PlaybackContract
  import opened MediaPlayers

  // Focus-change codes delivered by the host audio manager.
  const AudioFocusGain: int := 1
  const AudioFocusLoss: int := -1
  const AudioFocusLossTransient: int := -2
  const AudioFocusLossTransientCanDuck: int := -3

  /** The kind of audio focus the engine believes it holds. */
  datatype AudioFocus = NoFocusNoDuck | NoFocusCanDuck | Focused

  /** The focus a host focus-change code leads to; unsupported codes keep it. */
  function FocusAfterChange(focusChange: int, current: AudioFocus): AudioFocus
  {
    if focusChange == AudioFocusGain then Focused
    else if focusChange == AudioFocusLossTransientCanDuck then NoFocusCanDuck
    else if focusChange == AudioFocusLoss || focusChange == AudioFocusLossTransient then NoFocusNoDuck
    else current
  }

  /** `createMediaPlayer`: a new decoder when the slot is empty, otherwise the
      slot's own decoder, reset (a released one stays released). */
  function CreateMediaPlayer(player: Option<Decoder>): (r: Decoder)
    ensures r.Idle()
    ensures player.None? ==> !r.released && r.volume == Normal
    ensures player.Some? ==> r.released == player.value.released && r.volume == player.value.volume
  {
    if player.None? then NewDecoder() else Reset(player.value)
  }

  /** The decimal digit for `d`. */
  function DigitChar(d: nat): (c: char)
    requires d < 10
    ensures c as int == '0' as int + d
  {
    ('0' as int + d) as char
  }

  /** Decimal text of a natural number, without leading zeros. */
  function NatToString(n: nat): (r: string)
    ensures |r| > 0
    ensures forall i :: 0 <= i < |r| ==> '0' <= r[i] <= '9'
    ensures r[0] == '0' <==> n == 0
    ensures r[0] == '0' ==> |r| == 1
    decreases n
  {
    if n < 10 then [DigitChar(n)] else NatToString(n / 10) + [DigitChar(n % 10)]
  }

  /** Decimal text of an integer, as a string template renders it. */
  function IntToString(n: int): (r: string)
    ensures |r| > 0
    ensures r[0] == '-' <==> n < 0
    ensures forall i :: 0 <= i < |r| ==> r[i] == '-' || '0' <= r[i] <= '9'
  {
    if n < 0 then "-" + NatToString(-n) else NatToString(n)
  }

  /** The value of a decimal digit; other characters count as zero. */
  function DigitValue(c: char): nat
  {
    if '0' <= c <= '9' then c as int - '0' as int else 0
  }

  /** Reads decimal text back as a number, most significant digit first. */
  function DecimalValue(s: string): nat
    decreases |s|
  {
    if s == [] then 0 else DecimalValue(s[..|s| - 1]) * 10 + DigitValue(s[|s| - 1])
  }

  /** Reads possibly signed decimal text back as an integer. */
  function SignedDecimalValue(s: string): int
  {
    if |s| > 0 && s[0] == '-' then -(DecimalValue(s[1..]) as int) else DecimalValue(s)
  }

  /** The text of a natural number reads back as that number. */
  lemma {:induction false} NatToStringRoundTrip(n: nat)
    ensures DecimalValue(NatToString(n)) == n
    decreases n
  {
    var s := NatToString(n);
    if n < 10 {
      assert s[..|s| - 1] == [];
    } else {
      NatToStringRoundTrip(n / 10);
      assert s[..|s| - 1] == NatToString(n / 10);
    }
  }

  /** The text of an integer reads back as that integer. */
  lemma IntToStringRoundTrip(n: int)
    ensures SignedDecimalValue(IntToString(n)) == n
  {
    if n < 0 {
      NatToStringRoundTrip(-n);
      assert IntToString(n)[1..] == NatToString(-n);
    } else {
      NatToStringRoundTrip(n);
    }
  }

  /** The message reported for an asynchronous decoder error. */
  function DecoderErrorMessage(what: int, extra: int): (m: string)
    ensures |m| > 18 && m[..18] == "MediaPlayer error "
    ensures m[|m| - 1] == ')'
  {
    "MediaPlayer error " + IntToString(what) + " (" + IntToString(extra) + ")"
  }

  /** The error message names both codes: different codes give different
      messages. */
  lemma DecoderErrorMessageInjective(what1: int, extra1: int, what2: int, extra2: int)
    requires DecoderErrorMessage(what1, extra1) == DecoderErrorMessage(what2, extra2)
    ensures what1 == what2 && extra1 == extra2
  {
    var m := DecoderErrorMessage(what1, extra1);
    var a1, a2 := IntToString(what1), IntToString(what2);
    var b1, b2 := IntToString(extra1), IntToString(extra2);
    assert m == "MediaPlayer error " + a1 + " (" + b1 + ")";
    assert m == "MediaPlayer error " + a2 + " (" + b2 + ")";
    // The first space after the prefix ends the first code in both readings.
    assert m[18 + |a1|] == ' ' && m[18 + |a2|] == ' ';
    assert forall i :: 18 <= i < 18 + |a1| ==> m[i] == a1[i - 18];
    assert forall i :: 18 <= i < 18 + |a2| ==> m[i] == a2[i - 18];
    assert |a1| == |a2|;
    assert a1 == m[18..18 + |a1|] == a2;
    assert b1 == m[20 + |a1|..|m| - 1] == b2;
    IntToStringRoundTrip(what1);
    IntToStringRoundTrip(what2);
    IntToStringRoundTrip(extra1);
    IntToStringRoundTrip(extra2);
  }

  /** The two decoder slots and the active decoder reference; `active` is the
      slot the reference points at, or None for a null reference. */
  datatype Players = Players(a: Option<Decoder>, b: Option<Decoder>, active: Option<Slot>)
  {
    function Get(s: Slot): Option<Decoder>
    {
      if s == A then a else b
    }

    function Set(s: Slot, d: Decoder): (p: Players)
      ensures p.Get(s) == Some(d) && p.Get(s.Other()) == Get(s.Other()) && p.active == active
    {
      if s == A then this.(a := Some(d)) else this.(b := Some(d))
    }

    /** Both slots are created together, the active reference names an
        existing decoder, and no decoder is its own gapless successor. */
    predicate Valid()
    {
      (a.Some? <==> b.Some?) &&
      (active.Some? ==> Get(active.value).Some?) &&
      (a.Some? ==> a.value.successor != Some(A)) &&
      (b.Some? ==> b.value.successor != Some(B))
    }

    /** The active decoder reference is non-null. */
    predicate HasActive()
    {
      active.Some? && Get(active.value).Some?
    }

    function Active(): Decoder
      requires HasActive()
    {
      Get(active.value).value
    }

    function SetActive(d: Decoder): (p: Players)
      requires active.Some?
      ensures p.active == active && p.HasActive() && p.Active() == d
      ensures p.Get(active.value.Other()) == Get(active.value.Other())
    {
      Set(active.value, d)
    }

    /** `nextMediaPlayer()`: B when the active reference is identical to A's
        (a null reference is identical to an empty slot A), A otherwise. */
    function NextSlot(): (r: Slot)
      ensures active.Some? ==> r == active.value.Other()
      ensures active.None? ==> (r == A <==> a.Some?)
    {
      if active == Some(A) || (active.None? && a.None?) then B else A
    }

    /** `createMediaPlayerIfNeeded`: both slots hold an idle decoder, created
        or reset, and a null active reference becomes slot A. */
    function CreateIfNeeded(): (p: Players)
      ensures p.Valid() && p.HasActive() && p.Active().Idle()
      ensures p.active == if active.None? then Some(A) else active
      ensures p.a == Some(CreateMediaPlayer(a)) && p.b == Some(CreateMediaPlayer(b))
    {
      Players(Some(CreateMediaPlayer(a)), Some(CreateMediaPlayer(b)), if active.None? then Some(A) else active)
    }

    /** The decoder half of `relaxResources(true)`: a non-null active decoder
        is reset and released and the reference nulled; the slot keeps the
        released decoder. A null reference is left as it is. */
    function ReleaseActive(): (p: Players)
      ensures HasActive() ==>
        p.active.None? &&
        p.Get(active.value) == Some(Reset(Active()).(released := true)) &&
        p.Get(active.value.Other()) == Get(active.value.Other())
      ensures !HasActive() ==> p == this
    {
      if HasActive() then Set(active.value, Reset(Active()).(released := true)).(active := None)
      else this
    }
  }

  /** The engine's fields. `nextMediaId` is the pending gapless id,
      `wifiLockCount` the host's acquire count of the Wi-Fi lock, and
      `streamPositionField` the backing field that the stream-position setter
      writes and its getter never reads. */
  datatype Engine = Engine(
    state: PlaybackState,
    playOnFocusGain: bool,
    audioNoisyReceiverRegistered: bool,
    currentPosition: int,
    currentMediaId: Option<string>,
    nextMediaId: Option<string>,
    audioFocus: AudioFocus,
    players: Players,
    swapping: bool,
    wifiLockCount: nat,
    streamPositionField: int)
  {
    /** The invariant every command and event keeps (module
        LocalPlaybackInvariant): the slots are valid; buffering or playing
        needs an active decoder; the Wi-Fi lock is acquired at most once, and
        only while there is an active decoder. */
    predicate Valid()
    {
      players.Valid() &&
      ((state == Buffering || state == Playing) ==> players.active.Some?) &&
      wifiLockCount <= 1 &&
      (wifiLockCount == 1 ==> players.active.Some?)
    }

    predicate HasActive()
    {
      players.HasActive()
    }

    function Active(): Decoder
      requires HasActive()
    {
      players.Active()
    }

    function WithActive(d: Decoder): Engine
      requires players.active.Some?
    {
      this.(players := players.SetActive(d))
    }

    /** The `isPlaying` getter. */
    function IsPlaying(): (r: bool)
      ensures IsPlayingContract(r, HasActive() && Active().playing, playOnFocusGain)
    {
      playOnFocusGain || (HasActive() && Active().playing)
    }

    /** The `currentStreamPosition` getter: the live decoder's position, else
        the stored snapshot. */
    function CurrentStreamPosition(): (r: int)
      ensures HasActive() ==> r == Active().position
      ensures !HasActive() ==> r == currentPosition
    {
      if HasActive() then Active().position else currentPosition
    }

    /** `tryToGetAudioFocus`: request focus unless already focused; `granted`
        is the host's answer. */
    function TryToGetAudioFocus(granted: bool): Engine
    {
      if audioFocus != Focused && granted then this.(audioFocus := Focused) else this
    }

    /** `giveUpAudioFocus`: abandon focus if focused; `granted` is the host's
        answer. */
    function GiveUpAudioFocus(granted: bool): Engine
    {
      if audioFocus == Focused && granted then this.(audioFocus := NoFocusNoDuck) else this
    }

    /** `relaxResources`: optionally release the active decoder, then release
        the Wi-Fi lock if it is held. */
    function RelaxResources(releaseMediaPlayer: bool): (e: Engine)
      ensures e.wifiLockCount < wifiLockCount || e.wifiLockCount == 0
    {
      var e := if releaseMediaPlayer then this.(players := players.ReleaseActive()) else this;
      if e.wifiLockCount > 0 then e.(wifiLockCount := e.wifiLockCount - 1) else e
    }

    /** `pause`: only from PLAYING, pause a playing decoder capturing its
        position, release the lock and give up focus; then PAUSED in every
        case, reported, and the noisy receiver unregistered. */
    function Pause(abandonGranted: bool): (r: Step)
      ensures r.after.state == Paused && r.emitted == [StatusChanged(Paused)]
      ensures !r.after.audioNoisyReceiverRegistered
    {
      var e := if state == Playing then StopPlaying(abandonGranted) else this;
      Step(e.(state := Paused, audioNoisyReceiverRegistered := false), [StatusChanged(Paused)])
    }

    /** The PLAYING half of `pause`. */
    function StopPlaying(abandonGranted: bool): Engine
    {
      var e0 := if HasActive() && Active().playing
        then WithActive(Active().(playing := false)).(currentPosition := Active().position)
        else this;
      e0.RelaxResources(false).GiveUpAudioFocus(abandonGranted)
    }

    /** The volume step of `configMediaPlayerState` when the focus allows
        sound. The duck branch sets the active decoder's volume without a
        null check, hence the precondition. */
    function ApplyFocusVolume(): (e: Engine)
      requires audioFocus == NoFocusCanDuck ==> HasActive()
      ensures e.players.active == players.active && e.HasActive() == HasActive()
    {
      if audioFocus == NoFocusCanDuck then WithActive(Active().(volume := Duck))
      else if HasActive() then WithActive(Active().(volume := Normal))
      else this
    }

    /** The resume step of `configMediaPlayerState`. */
    function ResumeIfPending(): (e: Engine)
      ensures !e.playOnFocusGain
    {
      if playOnFocusGain then
        var e0 :=
          if HasActive() && !Active().playing then
            if currentPosition == Active().position
            then WithActive(Active().(playing := true)).(state := Playing)
            else WithActive(Active().(seekTarget := Some(currentPosition))).(state := Buffering)
          else this;
        e0.(playOnFocusGain := false)
      else this
    }

    /** `configMediaPlayerState`, the focus reconciliation: without focus,
        pause if PLAYING; otherwise set the volume and resume if a resume is
        pending. The state is reported at the end in every case. */
    function ConfigMediaPlayerState(): (r: Step)
      requires audioFocus == NoFocusCanDuck ==> HasActive()
      ensures |r.emitted| > 0 && r.emitted[|r.emitted| - 1] == StatusChanged(r.after.state)
    {
      if audioFocus == NoFocusNoDuck then
        if state == Playing then
          // the focus is not FOCUSED here, so pausing asks nothing of the host
          var p := Pause(false);
          Step(p.after, p.emitted + [StatusChanged(p.after.state)])
        else
          Step(this, [StatusChanged(state)])
      else
        var e := ApplyFocusVolume().ResumeIfPending();
        Step(e, [StatusChanged(e.state)])
    }

    /** `stop(notifyListeners)`. */
    function Stop(notifyListeners: bool, abandonGranted: bool): (r: Step)
      ensures StopContract(notifyListeners, r.after.state, r.emitted)
    {
      var e := this.(state := Stopped);
      Step(e.ReleaseAll(abandonGranted), if notifyListeners then [StatusChanged(e.state)] else [])
    }

    /** The release half of `stop`: snapshot the stream position, give up
        focus, unregister the noisy receiver, release the decoder and the lock. */
    function ReleaseAll(abandonGranted: bool): Engine
    {
      this.(currentPosition := CurrentStreamPosition())
        .GiveUpAudioFocus(abandonGranted).(audioNoisyReceiverRegistered := false)
        .RelaxResources(true)
    }

    /** `updateLastKnownStreamPosition`. */
    function UpdateLastKnownStreamPosition(): (e: Engine)
      ensures UpdatePositionContract(HasActive(), CurrentStreamPosition(), currentPosition, e.currentPosition)
      ensures e == this.(currentPosition := e.currentPosition)
    {
      if HasActive() then this.(currentPosition := Active().position) else this
    }

    /** Whether `play(mediaId)` takes the resume path: the same id, PAUSED,
        and a live active decoder. */
    predicate Resumes(mediaId: string)
    {
      state == Paused && Some(mediaId) == currentMediaId && HasActive()
    }

    /** The opening of `play`: the gapless hand-off is abandoned, a resume is
        wanted, focus is requested, the noisy receiver is registered, and a
        new media id is adopted with the position back at zero. */
    function BeginPlay(mediaId: string, focusGranted: bool): (e: Engine)
      ensures e.players == players && e.state == state && e.currentMediaId == Some(mediaId)
    {
      var e := this.(swapping := false, playOnFocusGain := true)
        .TryToGetAudioFocus(focusGranted).(audioNoisyReceiverRegistered := true);
      if Some(mediaId) != currentMediaId
      then e.(currentPosition := 0, currentMediaId := Some(mediaId))
      else e
    }

    /** The restart path of `play`: STOPPED, the lock released, both decoders
        created or reset, BUFFERING; the active decoder is given the source and
        prepared, the lock acquired and BUFFERING reported, unless assigning
        the source fails, which is reported instead. */
    function Restart(source: string, sourceFails: bool, ioMessage: Option<string>): (r: Step)
      ensures r.after.state == Buffering && r.after.HasActive()
      ensures r.emitted == if sourceFails then [Error(ioMessage)] else [StatusChanged(Buffering)]
    {
      var e := Reload();
      if sourceFails then
        Step(e, [Error(ioMessage)])
      else
        var e1 := e.WithActive(e.Active().(source := Some(source), preparing := true));
        Step(e1.(wifiLockCount := e1.wifiLockCount + 1), [StatusChanged(e1.state)])
    }

    /** The opening of the restart path: STOPPED, the lock released, both
        decoders created or reset, then BUFFERING. */
    function Reload(): (e: Engine)
      ensures e.state == Buffering && e.HasActive() && e.Active().Idle()
    {
      var relaxed := this.(state := Stopped).RelaxResources(false);
      relaxed.(players := relaxed.players.CreateIfNeeded(), state := Buffering)
    }

    /** `play(item)` for an item whose media id is `mediaId` and whose catalog
        source is `source`. `focusGranted` is the host's answer to the focus
        request; `sourceFails` says that assigning the source failed, with
        `ioMessage` as the failure's message. */
    function Play(mediaId: string, source: string, focusGranted: bool,
                  sourceFails: bool, ioMessage: Option<string>): (r: Step)
      ensures r.after.currentMediaId == Some(mediaId)
    {
      var e := BeginPlay(mediaId, focusGranted);
      if state == Paused && Some(mediaId) == currentMediaId && e.HasActive() then
        e.ConfigMediaPlayerState()
      else
        e.Restart(source, sourceFails, ioMessage)
    }

    /** `playNext(item)`: arm the decoder that is not active for a gapless
        hand-off. The next slot must hold a decoder (it is dereferenced
        unchecked). */
    function PlayNext(mediaId: string, source: string, sourceFails: bool,
                      ioMessage: Option<string>): (r: Step)
      requires players.Get(players.NextSlot()).Some?
      ensures r.after.swapping
      ensures r.emitted == if sourceFails then [Error(ioMessage)] else []
    {
      var e := if Some(mediaId) != currentMediaId then this.(nextMediaId := Some(mediaId)) else this;
      var l := e.LoadNext(players.NextSlot(), source, sourceFails, ioMessage);
      Step(l.after.(swapping := true), l.emitted)
    }

    /** The loading half of `playNext`: the decoder in `slot` is given the
        source, or the failure to assign it is reported, and starts preparing. */
    function LoadNext(slot: Slot, source: string, sourceFails: bool, ioMessage: Option<string>): (r: Step)
      requires players.Get(slot).Some?
      ensures r.emitted == if sourceFails then [Error(ioMessage)] else []
    {
      var d := players.Get(slot).value;
      var d1 := if sourceFails then d else d.(source := Some(source));
      Step(this.(players := players.Set(slot, d1.(preparing := true))), if sourceFails then [Error(ioMessage)] else [])
    }

    /** `seekTo(position)`. */
    function SeekTo(position: int): (r: Step)
      ensures r.emitted == if HasActive() then [StatusChanged(r.after.state)] else []
    {
      if !HasActive() then
        Step(this.(currentPosition := position), [])
      else
        var e := if Active().playing then this.(state := Buffering) else this;
        var e1 := e.WithActive(e.Active().(seekTarget := Some(position)));
        Step(e1, [StatusChanged(e1.state)])
    }

    /** `onSeekComplete`, with the position the seeking decoder reports. The
        engine only ever seeks the active decoder, so that decoder now stands
        at the reported position. The active decoder is started unchecked
        from BUFFERING. */
    function OnSeekComplete(reportedPosition: int): (r: Step)
      requires state == Buffering ==> HasActive()
      ensures r.after.currentPosition == reportedPosition
      ensures r.after.CurrentStreamPosition() == reportedPosition
      ensures HasActive() ==> r.after.HasActive() && r.after.Active().position == reportedPosition
      ensures r.emitted == [StatusChanged(r.after.state)]
    {
      var e := this.(currentPosition := reportedPosition);
      var e0 := if HasActive() then e.WithActive(Active().(position := reportedPosition)) else e;
      var e1 := if state == Buffering then e0.WithActive(e0.Active().(playing := true)).(state := Playing) else e0;
      Step(e1, [StatusChanged(e1.state)])
    }

    /** What the host does when the active decoder plays to the end, just
        before it delivers `onCompletion`: that decoder stops, and the decoder
        it was handed as gapless successor (`setNextMediaPlayer`) starts
        playing. Nothing else changes. */
    function Finish(): (e: Engine)
      ensures e == this.(players := e.players)
      ensures e.players.active == players.active
      ensures !HasActive() ==> e == this
      ensures HasActive() ==>
        var was := players.active.value;
        var next := players.Get(was.Other());
        e.HasActive() && e.Active() == Active().(playing := false) &&
        e.players.Get(was.Other()) ==
          (if Active().successor == Some(was.Other()) && next.Some? then Some(next.value.(playing := true)) else next)
    {
      if !HasActive() then this
      else
        var was := players.active.value;
        var stopped := players.SetActive(Active().(playing := false));
        var next := players.Get(was.Other());
        if Active().successor == Some(was.Other()) && next.Some? then
          this.(players := stopped.Set(was.Other(), next.value.(playing := true)))
        else
          this.(players := stopped)
    }

    /** `onCompletion`. The old decoder is dereferenced unchecked, so an armed
        hand-off needs an active decoder. */
    function OnCompletion(): (r: Step)
      requires swapping ==> HasActive()
      ensures !r.after.swapping
      ensures |r.emitted| > 0 && r.emitted[|r.emitted| - 1] == Completion
    {
      if swapping then
        var e := HandOff();
        Step(e, [StatusChanged(e.state), Completion])
      else
        Step(this, [Completion])
    }

    /** The gapless hand-off of `onCompletion`: the position restarts at zero,
        the pending id becomes current, the other slot becomes active and the
        finished decoder is reset. */
    function HandOff(): Engine
      requires HasActive()
    {
      var was := players.active.value;
      var e := this.(currentPosition := 0, currentMediaId := nextMediaId,
                     players := players.(active := Some(players.NextSlot())), swapping := false);
      e.(players := e.players.Set(was, Reset(players.Active())))
    }

    /** `onPrepared`. While a hand-off is armed the active reference must be
        non-null (it is required so); otherwise a ducking focus needs a live
        decoder for the reconciliation. */
    function OnPrepared(): (r: Step)
      requires swapping ==> HasActive()
      requires !swapping && audioFocus == NoFocusCanDuck ==> HasActive()
      ensures r.after.swapping == swapping
    {
      if swapping then
        Step(WithActive(Active().(successor := Some(players.NextSlot()))), [])
      else
        ConfigMediaPlayerState()
    }

    /** The first half of `onAudioFocusChange`: map the host code to a focus,
        and arm a resume when a non-duckable loss hits PLAYING. */
    function NoteFocusChange(focusChange: int): (e: Engine)
      ensures e.audioFocus == FocusAfterChange(focusChange, audioFocus)
      ensures e.players == players && e.state == state
    {
      if focusChange == AudioFocusGain then
        this.(audioFocus := Focused)
      else if focusChange == AudioFocusLoss || focusChange == AudioFocusLossTransient ||
              focusChange == AudioFocusLossTransientCanDuck then
        var canDuck := focusChange == AudioFocusLossTransientCanDuck;
        var e := this.(audioFocus := if canDuck then NoFocusCanDuck else NoFocusNoDuck);
        if state == Playing && !canDuck then e.(playOnFocusGain := true) else e
      else
        this
    }

    /** `onAudioFocusChange`. A ducking focus needs a live decoder, since the
        reconciliation then sets its volume unchecked. */
    function OnAudioFocusChange(focusChange: int): (r: Step)
      requires FocusAfterChange(focusChange, audioFocus) == NoFocusCanDuck ==> HasActive()
      ensures r.after.audioFocus == FocusAfterChange(focusChange, audioFocus)
    {
      NoteFocusChange(focusChange).ConfigMediaPlayerState()
    }

    /** `onError`: the decoder error is reported and nothing else changes. */
    function OnError(what: int, extra: int): (r: Step)
      ensures r.after == this
      ensures r.emitted == [Error(Some(DecoderErrorMessage(what, extra)))]
    {
      Step(this, [Error(Some(DecoderErrorMessage(what, extra)))])
    }
  }

  /** What a command or event leaves behind: the new fields, and the calls it
      made on the callback, in order. */
  datatype Step = Step(after: Engine, emitted: seq<Event>)

  /** The engine as constructed: state NONE, no decoders, no focus. */
  function InitialEngine(): (e: Engine)
    ensures e.Valid() && e.state == NoState && !e.HasActive() && !e.IsPlaying()
  {
    Engine(NoState, false, false, 0, None, None, NoFocusNoDuck, Players(None, None, None), false, 0, 0)
  }
}
