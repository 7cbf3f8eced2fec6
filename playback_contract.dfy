/** The backend-agnostic playback contract: the state vocabulary shared with the
    media session, the four-call callback sink with its no-op default, and the
    documented promises every playback backend makes. */
module PlaybackContract {

  datatype Option<T> = None | Some(value: T)

  /** The playback states the engine sets, with their integer codes in the
      host media-session vocabulary (`NoState` is the vocabulary's NONE, the
      state before any command). */
  datatype PlaybackState = NoState | Stopped | Paused | Playing | Buffering
  {
    function Code(): int
    {
      match this
      case NoState => 0
      case Stopped => 1
      case Paused => 2
      case Playing => 3
      case Buffering => 6
    }
  }

  /** Reads a host state code back into the five states this engine sets.
      The host vocabulary has further codes (ERROR 7, CONNECTING 8 and
      others) that the `state` property would accept but the engine never
      sets; they are not modelled and read back as None. */
  function StateFromCode(code: int): (r: Option<PlaybackState>)
    ensures r.Some? ==> r.value.Code() == code
    ensures r.None? <==> forall s: PlaybackState :: s.Code() != code
  {
    if code == 0 then Some(NoState)
    else if code == 1 then Some(Stopped)
    else if code == 2 then Some(Paused)
    else if code == 3 then Some(Playing)
    else if code == 6 then Some(Buffering)
    else None
  }

  lemma StateCodeRoundTrip(s: PlaybackState)
    ensures StateFromCode(s.Code()) == Some(s)
  {
  }

  /** One call a backend makes on its callback sink. */
  datatype Event =
    | Completion
    | StatusChanged(state: PlaybackState)
    | Error(message: Option<string>)
    | MediaIdChanged(mediaId: Option<string>)

  /** A callback sink: the default `Empty` one ignores every call; a `Session`
      sink stands for the media-session controller and accumulates what it got. */
  datatype Callback = Empty | Session(received: seq<Event>)

  /** The effect of one call on a sink. */
  function Receive(cb: Callback, e: Event): Callback
  {
    match cb
    case Empty => Empty
    case Session(got) => Session(got + [e])
  }

  /** The effect of a series of calls on a sink, in order. */
  function ReceiveAll(cb: Callback, es: seq<Event>): Callback
    decreases |es|
  {
    if es == [] then cb else ReceiveAll(Receive(cb, es[0]), es[1..])
  }

  /** The same effect in closed form: the default sink stays as it is, a
      session sink appends the calls to what it had. */
  function Delivered(cb: Callback, es: seq<Event>): Callback
  {
    match cb
    case Empty => Empty
    case Session(got) => Session(got + es)
  }

  /** The default sink observes nothing, whatever is sent to it. */
  lemma {:induction false} EmptyIgnoresAll(es: seq<Event>)
    ensures ReceiveAll(Empty, es) == Empty
    decreases |es|
  {
    if es != [] {
      EmptyIgnoresAll(es[1..]);
    }
  }

  /** A session sink receives every call, in the order the calls were made. */
  lemma {:induction false} SessionReceivesAll(got: seq<Event>, es: seq<Event>)
    ensures ReceiveAll(Session(got), es) == Session(got + es)
    decreases |es|
  {
    if es != [] {
      SessionReceivesAll(got + [es[0]], es[1..]);
      assert got + [es[0]] + es[1..] == got + es;
    }
  }

  /** Making the calls one at a time has the closed-form effect. */
  lemma ReceiveAllIsDelivered(cb: Callback, es: seq<Event>)
    ensures ReceiveAll(cb, es) == Delivered(cb, es)
  {
    match cb
    case Empty => EmptyIgnoresAll(es);
    case Session(got) => SessionReceivesAll(got, es);
  }

  /** Sending two batches is sending their concatenation. */
  lemma {:induction false} ReceiveAllAppend(cb: Callback, xs: seq<Event>, ys: seq<Event>)
    ensures ReceiveAll(ReceiveAll(cb, xs), ys) == ReceiveAll(cb, xs + ys)
    decreases |xs|
  {
    if xs == [] {
      assert xs + ys == ys;
    } else {
      ReceiveAllAppend(Receive(cb, xs[0]), xs[1..], ys);
      assert (xs + ys)[0] == xs[0] && (xs + ys)[1..] == xs[1..] + ys;
    }
  }

  // The documented promises of the Playback interface, stated once so that
  // each backend operation can be shown to keep them.

  /** `stop(notifyListeners)`: the state is STOPPED, and the status-change call
      (with that new state) is made exactly when listeners are to be notified. */
  predicate StopContract(notifyListeners: bool, after: PlaybackState, emitted: seq<Event>)
  {
    after == Stopped &&
    emitted == if notifyListeners then [StatusChanged(Stopped)] else []
  }

  /** `isPlaying`: playing, or supposed to play once audio focus is regained. */
  predicate IsPlayingContract(result: bool, decoding: bool, pendingResume: bool)
  {
    result <==> decoding || pendingResume
  }

  /** `playNext`: reports whether gapless playback is supported. */
  predicate PlayNextContract(result: bool, supportsGapless: bool)
  {
    result == supportsGapless
  }

  /** `updateLastKnownStreamPosition`: refreshed from the live stream, if any. */
  predicate UpdatePositionContract(hasStream: bool, streamPosition: int, before: int, after: int)
  {
    after == if hasStream then streamPosition else before
  }
}
