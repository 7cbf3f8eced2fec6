/** Runs of the local playback engine: any sequence of commands from the
    media session and events from the host, started from the freshly
    constructed engine. Every state such a run reaches satisfies the engine
    invariant, so the unchecked dereferences that rely on it never fail and
    the Wi-Fi lock is never acquired twice. */
module LocalPlaybackReachability {
  import opened PlaybackContract
  import opened MediaPlayers
  import opened LocalPlaybackEngine
  import opened LocalPlaybackInvariant
  import opened LocalPlaybackProperties

  /** One command or host event, with the host's answers it depends on. The
      `state` setter is not among them: it accepts any state, so it is not
      bound by the invariant. */
  datatype Stimulus =
    | Play(mediaId: string, source: string, focusGranted: bool, sourceFails: bool, ioMessage: Option<string>)
    | PlayNext(mediaId: string, source: string, sourceFails: bool, ioMessage: Option<string>)
    | Pause(abandonGranted: bool)
    | SeekTo(position: int)
    | Stop(notifyListeners: bool, abandonGranted: bool)
    | UpdatePosition
    | SetMediaId(id: Option<string>)
    | SetStreamPosition(position: int)
    | FocusChanged(focusChange: int)
    | SeekCompleted(reportedPosition: int)
    | Completed  // the active decoder plays to the end, then `onCompletion`
    | Prepared
    | DecoderError(what: int, extra: int)

  /** The stimulus does not reach one of the source's unchecked dereferences
      (`!!` or `requireNotNull`) with a null decoder. Only the commands and
      events that hold one can fail; under the invariant `onSeekComplete`
      never fails, and `playNext` cannot fail once the decoders exist. */
  function Enabled(e: Engine, s: Stimulus): (r: bool)
    ensures !r ==> s.PlayNext? || s.FocusChanged? || s.SeekCompleted? || s.Completed? || s.Prepared?
    ensures e.Valid() && s.SeekCompleted? ==> r
    ensures e.Valid() && e.players.a.Some? && s.PlayNext? ==> r
  {
    match s
    case PlayNext(_, _, _, _) => e.players.Get(e.players.NextSlot()).Some?
    case FocusChanged(c) => FocusAfterChange(c, e.audioFocus) == NoFocusCanDuck ==> e.HasActive()
    case SeekCompleted(_) => e.state == Buffering ==> e.HasActive()
    case Completed => e.swapping ==> e.HasActive()
    case Prepared => e.swapping || e.audioFocus == NoFocusCanDuck ==> e.HasActive()
    case _ => true
  }

  /** The engine after one stimulus; `None` when the source would throw on a
      null decoder. */
  function Apply(e: Engine, s: Stimulus): Option<Engine>
  {
    if !Enabled(e, s) then None
    else
      Some(match s
        case Play(id, src, granted, fails, msg) => e.Play(id, src, granted, fails, msg).after
        case PlayNext(id, src, fails, msg) => e.PlayNext(id, src, fails, msg).after
        case Pause(granted) => e.Pause(granted).after
        case SeekTo(position) => e.SeekTo(position).after
        case Stop(notify, granted) => e.Stop(notify, granted).after
        case UpdatePosition => e.UpdateLastKnownStreamPosition()
        case SetMediaId(id) => e.(currentMediaId := id)
        case SetStreamPosition(position) => e.(streamPositionField := position)
        case FocusChanged(c) => e.OnAudioFocusChange(c).after
        case SeekCompleted(position) => e.OnSeekComplete(position).after
        case Completed => e.Finish().OnCompletion().after
        case Prepared => e.OnPrepared().after
        case DecoderError(what, extra) => e.OnError(what, extra).after)
  }

  /** The engine after a whole trace; `None` when some stimulus on the way
      would throw. */
  function Run(e: Engine, trace: seq<Stimulus>): Option<Engine>
    decreases |trace|
  {
    if trace == [] then Some(e)
    else
      match Apply(e, trace[0])
      case None => None
      case Some(f) => Run(f, trace[1..])
  }

  /** A stimulus the invariant allows keeps the invariant. */
  lemma ApplyKeepsValid(e: Engine, s: Stimulus)
    requires e.Valid()
    ensures Apply(e, s).Some? ==> Apply(e, s).value.Valid()
  {
    if Enabled(e, s) {
      match s
      case Play(id, src, granted, fails, msg) => PlayKeepsValid(e, id, src, granted, fails, msg);
      case PlayNext(id, src, fails, msg) => PlayNextKeepsValid(e, id, src, fails, msg);
      case Pause(granted) => PauseKeepsValid(e, granted);
      case SeekTo(position) => SeekToKeepsValid(e, position);
      case Stop(notify, granted) => StopKeepsValid(e, notify, granted);
      case UpdatePosition =>
      case SetMediaId(_) =>
      case SetStreamPosition(_) =>
      case FocusChanged(c) => OnAudioFocusChangeKeepsValid(e, c);
      case SeekCompleted(position) => OnSeekCompleteKeepsValid(e, position);
      case Completed => FinishKeepsValid(e); OnCompletionKeepsValid(e.Finish());
      case Prepared => OnPreparedKeepsValid(e);
      case DecoderError(_, _) =>
    }
  }

  /** A trace from a valid engine only reaches valid engines. */
  lemma {:induction false} RunKeepsValid(e: Engine, trace: seq<Stimulus>)
    requires e.Valid()
    ensures Run(e, trace).Some? ==> Run(e, trace).value.Valid()
    decreases |trace|
  {
    if trace != [] {
      ApplyKeepsValid(e, trace[0]);
      var f := Apply(e, trace[0]);
      if f.Some? {
        RunKeepsValid(f.value, trace[1..]);
      }
    }
  }

  /** In every state reachable from the constructed engine, BUFFERING and
      PLAYING have an active decoder (so `onSeekComplete` never dereferences a
      null decoder), the Wi-Fi lock is acquired at most once, and it is held
      only while a decoder is active. */
  lemma ReachableStatesAreSound(trace: seq<Stimulus>)
    ensures var r := Run(InitialEngine(), trace);
      r.Some? ==>
        ((r.value.state == Buffering || r.value.state == Playing) ==> r.value.HasActive()) &&
        r.value.wifiLockCount <= 1 &&
        (r.value.wifiLockCount == 1 ==> r.value.HasActive()) &&
        (r.value.players.a.Some? <==> r.value.players.b.Some?)
  {
    RunKeepsValid(InitialEngine(), trace);
  }

  /** A trace fails exactly when the run reaches a state in which the next
      stimulus would dereference a null decoder. */
  lemma {:induction false} RunFailsOnlyWhenDisabled(e: Engine, trace: seq<Stimulus>)
    ensures Run(e, trace).None? <==>
      exists i :: 0 <= i < |trace| && Prefix(e, trace, i).Some? && !Enabled(Prefix(e, trace, i).value, trace[i])
    decreases |trace|
  {
    if trace != [] {
      var f := Apply(e, trace[0]);
      if f.None? {
        assert Prefix(e, trace, 0) == Some(e);
      } else {
        RunFailsOnlyWhenDisabled(f.value, trace[1..]);
        forall i | 1 <= i <= |trace|
          ensures Prefix(e, trace, i) == Prefix(f.value, trace[1..], i - 1)
        {
          PrefixStep(e, trace, i);
        }
        if Run(f.value, trace[1..]).None? {
          var j :| 0 <= j < |trace[1..]| && Prefix(f.value, trace[1..], j).Some? &&
                   !Enabled(Prefix(f.value, trace[1..], j).value, trace[1..][j]);
          assert Prefix(e, trace, j + 1) == Prefix(f.value, trace[1..], j);
        } else {
          forall i | 0 <= i < |trace| && Prefix(e, trace, i).Some?
            ensures Enabled(Prefix(e, trace, i).value, trace[i])
          {
            if i > 0 {
              assert Prefix(e, trace, i) == Prefix(f.value, trace[1..], i - 1);
              assert trace[i] == trace[1..][i - 1];
            }
          }
        }
      }
    }
  }

  /** A reachable null dereference: after `play` created the decoders,
      `stop` nulls the active reference and `playNext` arms a hand-off on
      slot A; when that decoder is prepared, `onPrepared` dereferences the
      null active reference. */
  lemma PreparedAfterStopAndPlayNextFails(mediaId: string, source: string, nextId: string, nextSource: string,
                                          notifyListeners: bool, abandonGranted: bool)
    ensures Run(InitialEngine(), [Play(mediaId, source, true, false, None), Stop(notifyListeners, abandonGranted),
                                  PlayNext(nextId, nextSource, false, None), Prepared]) == None
  {
    var e := InitialEngine();
    var played := e.Play(mediaId, source, true, false, None).after;
    PlayRestart(e, mediaId, source, true, false, None);
    PlayKeepsValid(e, mediaId, source, true, false, None);
    var stopped := played.Stop(notifyListeners, abandonGranted).after;
    StopReleasesActiveDecoder(played, notifyListeners, abandonGranted);
    assert stopped.players.active.None? && stopped.players.a.Some?;
    var armed := stopped.PlayNext(nextId, nextSource, false, None).after;
    PlayNextArmsOtherSlot(stopped, nextId, nextSource, false, None);
    assert armed.swapping && !armed.HasActive();
    var trace := [Play(mediaId, source, true, false, None), Stop(notifyListeners, abandonGranted),
                  PlayNext(nextId, nextSource, false, None), Prepared];
    assert Run(e, trace) == Run(played, trace[1..]);
    assert Run(played, trace[1..]) == Run(stopped, trace[2..]);
    assert Run(stopped, trace[2..]) == Run(armed, trace[3..]);
  }

  /** Play a media, let it prepare, pause it, seek while paused and let the
      seek complete; playing the same media again then finds the decoder at
      the stored position and starts it: PLAYING from the seek position. */
  lemma {:induction false} SeekWhilePausedThenPlayStarts(mediaId: string, source: string, position: int,
                                                         abandonGranted: bool)
    ensures var r := Run(InitialEngine(), [Play(mediaId, source, true, false, None), Prepared,
                                           Pause(abandonGranted), SeekTo(position), SeekCompleted(position),
                                           Play(mediaId, source, true, false, None)]);
      r.Some? && r.value.state == Playing && r.value.HasActive() &&
      r.value.Active().playing && r.value.Active().position == position &&
      r.value.CurrentStreamPosition() == position
  {
    var opening := [Play(mediaId, source, true, false, None), Prepared];
    var rest := [Pause(abandonGranted), SeekTo(position), SeekCompleted(position),
                 Play(mediaId, source, true, false, None)];
    var e := InitialEngine();
    var played := e.Play(mediaId, source, true, false, None).after;
    PlayThenPreparedPlays(mediaId, source);
    var prepared := played.OnPrepared().after;
    RunCons(e, opening[0], [Prepared], played);
    RunCons(played, Prepared, [], prepared);
    RunPausedSeekThenPlay(prepared, mediaId, source, position, abandonGranted);
    RunAppend(e, opening, rest);
    assert opening + rest == [Play(mediaId, source, true, false, None), Prepared,
                              Pause(abandonGranted), SeekTo(position), SeekCompleted(position),
                              Play(mediaId, source, true, false, None)];
  }

  /** The run of `pause`, a seek, its completion and `play` from PLAYING. */
  lemma {:induction false} RunPausedSeekThenPlay(e: Engine, mediaId: string, source: string, position: int,
                                                 abandonGranted: bool)
    requires e.Valid() && e.state == Playing && e.HasActive() && e.currentMediaId == Some(mediaId)
    ensures var r := Run(e, [Pause(abandonGranted), SeekTo(position), SeekCompleted(position),
                             Play(mediaId, source, true, false, None)]);
      r.Some? && r.value.state == Playing && r.value.HasActive() &&
      r.value.Active().playing && r.value.Active().position == position
  {
    PausedSeekThenPlayStarts(e, mediaId, source, position, abandonGranted);
    RunPauseThenSeek(e, abandonGranted, position);
    var seeked := e.Pause(abandonGranted).after.SeekTo(position).after;
    RunSeekCompletedThenPlay(seeked, position, mediaId, source);
    RunAppend(e, [Pause(abandonGranted), SeekTo(position)],
              [SeekCompleted(position), Play(mediaId, source, true, false, None)]);
    assert [Pause(abandonGranted), SeekTo(position)] + [SeekCompleted(position), Play(mediaId, source, true, false, None)]
        == [Pause(abandonGranted), SeekTo(position), SeekCompleted(position), Play(mediaId, source, true, false, None)];
  }

  /** `pause` and then a seek never reach a null dereference. */
  lemma RunPauseThenSeek(e: Engine, abandonGranted: bool, position: int)
    ensures Run(e, [Pause(abandonGranted), SeekTo(position)]) ==
            Some(e.Pause(abandonGranted).after.SeekTo(position).after)
  {
    var paused := e.Pause(abandonGranted).after;
    RunCons(e, Pause(abandonGranted), [SeekTo(position)], paused);
    RunCons(paused, SeekTo(position), [], paused.SeekTo(position).after);
  }

  /** A seek completion outside BUFFERING, or with an active decoder, and
      then `play` never reach a null dereference. */
  lemma RunSeekCompletedThenPlay(e: Engine, position: int, mediaId: string, source: string)
    requires e.state == Buffering ==> e.HasActive()
    ensures Run(e, [SeekCompleted(position), Play(mediaId, source, true, false, None)]) ==
            Some(e.OnSeekComplete(position).after.Play(mediaId, source, true, false, None).after)
  {
    var landed := e.OnSeekComplete(position).after;
    ApplySeekCompleted(e, position);
    RunCons(e, SeekCompleted(position), [Play(mediaId, source, true, false, None)], landed);
    ApplyPlay(landed, mediaId, source, true, false, None);
    RunCons(landed, Play(mediaId, source, true, false, None), [],
            landed.Play(mediaId, source, true, false, None).after);
  }

  /** A seek completion outside BUFFERING, or with an active decoder, never
      reaches a null dereference. */
  lemma ApplySeekCompleted(e: Engine, position: int)
    requires e.state == Buffering ==> e.HasActive()
    ensures Apply(e, SeekCompleted(position)) == Some(e.OnSeekComplete(position).after)
  {
  }

  /** `play` never reaches a null dereference. */
  lemma ApplyPlay(e: Engine, mediaId: string, source: string, focusGranted: bool, sourceFails: bool,
                  ioMessage: Option<string>)
    ensures Apply(e, Play(mediaId, source, focusGranted, sourceFails, ioMessage)) ==
            Some(e.Play(mediaId, source, focusGranted, sourceFails, ioMessage).after)
  {
  }

  /** Running two traces one after the other is running their
      concatenation. */
  lemma {:induction false} RunAppend(e: Engine, first: seq<Stimulus>, second: seq<Stimulus>)
    ensures Run(e, first + second) ==
      match Run(e, first)
      case None => None
      case Some(f) => Run(f, second)
    decreases |first|
  {
    if first == [] {
      assert first + second == second;
    } else {
      assert (first + second)[0] == first[0];
      assert (first + second)[1..] == first[1..] + second;
      var f := Apply(e, first[0]);
      if f.Some? {
        RunAppend(f.value, first[1..], second);
      }
    }
  }

  /** A run whose first stimulus succeeds continues from the engine it
      leads to. */
  lemma RunCons(e: Engine, s: Stimulus, rest: seq<Stimulus>, f: Engine)
    requires Apply(e, s) == Some(f)
    ensures Run(e, [s] + rest) == Run(f, rest)
  {
    assert ([s] + rest)[1..] == rest;
  }

  /** From the constructed engine, `play` with focus granted and the
      decoder's `onPrepared` leave the media playing. */
  lemma {:induction false} PlayThenPreparedPlays(mediaId: string, source: string)
    ensures var played := InitialEngine().Play(mediaId, source, true, false, None).after;
      !played.swapping && played.audioFocus == Focused && played.Valid() &&
      var prepared := played.OnPrepared().after;
      prepared.Valid() && prepared.state == Playing && prepared.HasActive() &&
      prepared.currentMediaId == Some(mediaId)
  {
    var e := InitialEngine();
    var played := e.Play(mediaId, source, true, false, None).after;
    PlayRestart(e, mediaId, source, true, false, None);
    PlayNewMediaRestartsAtZero(e, mediaId, source, true, false, None);
    PlayKeepsValid(e, mediaId, source, true, false, None);
    assert played.Active().position == 0 && !played.Active().playing && played.currentPosition == 0;
    PreparedOtherwiseReconciles(played);
    ConfigWithFocus(played);
    ConfigKeepsDecoderSetup(played);
    OnPreparedKeepsValid(played);
  }

  /** From PLAYING: `pause`, a seek while paused, its completion, and `play`
      of the same media with focus granted start the decoder at the seek
      position. */
  lemma {:induction false} PausedSeekThenPlayStarts(e: Engine, mediaId: string, source: string, position: int,
                                                    abandonGranted: bool)
    requires e.Valid() && e.state == Playing && e.HasActive() && e.currentMediaId == Some(mediaId)
    ensures var seeked := e.Pause(abandonGranted).after.SeekTo(position).after;
      seeked.state == Paused &&
      var r := seeked.OnSeekComplete(position).after.Play(mediaId, source, true, false, None).after;
      r.state == Playing && r.HasActive() && r.Active().playing && r.Active().position == position
  {
    var paused := e.Pause(abandonGranted).after;
    PauseFromPlaying(e, abandonGranted);
    PauseKeepsValid(e, abandonGranted);
    assert paused.state == Paused && paused.HasActive() && !paused.Active().playing;
    var seeked := paused.SeekTo(position).after;
    SeekWithDecoder(paused, position);
    SeekToKeepsValid(paused, position);
    var landed := seeked.OnSeekComplete(position).after;
    SeekCompleteResumes(seeked, position);
    OnSeekCompleteKeepsValid(seeked, position);
    assert landed.Resumes(mediaId) && !landed.Active().playing;
    assert landed.currentPosition == position && landed.Active().position == position;
    PlaySameMediaWhilePausedOnlyReconciles(landed, mediaId, source, true, false, None);
    var b := landed.BeginPlay(mediaId, true);
    assert b.players == landed.players && b.audioFocus == Focused && b.playOnFocusGain;
    assert b.currentPosition == position;
    ConfigWithFocus(b);
  }

  /** The engine after the first `n` stimuli of a trace. */
  function Prefix(e: Engine, trace: seq<Stimulus>, n: nat): Option<Engine>
    requires n <= |trace|
  {
    Run(e, trace[..n])
  }

  /** Running a prefix of length `n + 1` is one stimulus followed by a prefix of
      length `n` of the rest. */
  lemma PrefixStep(e: Engine, trace: seq<Stimulus>, n: nat)
    requires 1 <= n <= |trace|
    ensures Apply(e, trace[0]).Some? ==>
      Prefix(e, trace, n) == Prefix(Apply(e, trace[0]).value, trace[1..], n - 1)
  {
    assert trace[..n][0] == trace[0];
    assert trace[..n][1..] == trace[1..][..n - 1];
  }
}
