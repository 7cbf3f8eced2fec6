/** The host decoder (an Android MediaPlayer) as the playback engine sees it: a
    record of what the engine has asked of it. Decoding, buffering and the
    timing of its asynchronous events belong to the host and are not modelled. */
module MediaPlayers {
  import opened PlaybackContract

  /** The engine's two decoder slots. */
  datatype Slot = A | B
  {
    function Other(): (r: Slot)
      ensures r != this
    {
      if this == A then B else A
    }
  }

  /** Output volume: ducked while another app holds transient focus, or normal.
      The host takes them as the gains 0.2 and 1.0 on both channels. */
  datatype Volume = Duck | Normal
  {
    /** The gain as a percentage of full volume (0.2 is 20, 1.0 is 100). */
    function Percent(): (r: nat)
      ensures 0 < r <= 100
      ensures r == 100 <==> this == Normal
    {
      if Duck? then 20 else 100
    }
  }

  /** One decoder: whether it was released, the data source assigned since the
      last reset, whether an asynchronous prepare was issued, whether it is
      playing, its reported position in milliseconds, its volume, the slot
      handed to it as gapless successor, and the last seek it was asked for. */
  datatype Decoder = Decoder(
    released: bool,
    source: Option<string>,
    preparing: bool,
    playing: bool,
    position: int,
    volume: Volume,
    successor: Option<Slot>,
    seekTarget: Option<int>)
  {
    /** The host's idle state: nothing assigned, nothing pending, not playing. */
    predicate Idle()
    {
      source.None? && !preparing && !playing && position == 0 &&
      successor.None? && seekTarget.None?
    }
  }

  /** A newly constructed decoder. */
  function NewDecoder(): (d: Decoder)
    ensures d.Idle() && !d.released && d.volume == Normal
  {
    Decoder(false, None, false, false, 0, Normal, None, None)
  }

  /** `reset()`: back to idle. A released decoder stays released. */
  function Reset(d: Decoder): (r: Decoder)
    ensures r.Idle()
    ensures r.released == d.released && r.volume == d.volume
  {
    d.(source := None, preparing := false, playing := false, position := 0,
       successor := None, seekTarget := None)
  }
}
