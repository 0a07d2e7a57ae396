/** The PPM (pulse-position modulation) decoder: the edge interrupt turns
    the time between two edges into a channel pulse width or a frame gap,
    and keeps the last six pulse widths in a table that the main loop reads
    as a snapshot. */
module Ppm {
  import opened Ints

  const MICROSECONDS_PER_TICK: int := 4
  const FIRST_CHANNEL_INDEX: U8 := 0
  const MAX_NUM_CHANNELS: int := 6
  /** The frame-gap threshold. The firmware names it in milliseconds but
      compares it with an elapsed time in microseconds, so it acts as 4000 us. */
  const BLANK_PPM_SIGNAL: int := 4000

  /** The decoder's state as values: the statics LAST_TICK, CHANNEL_INDEX
      and CHANNEL_VALUES. */
  datatype DecoderState = DecoderState(lastTick: U16, channelIndex: U8, channels: seq<U16>)

  /** The shape of the statics: six slots and an index in 0..6 (6 meaning
      "frame complete, waiting for a gap"). */
  predicate WellFormed(s: DecoderState)
  {
    |s.channels| == MAX_NUM_CHANNELS && s.channelIndex <= MAX_NUM_CHANNELS
  }

  /** What holds of every state the decoder reaches: it is well formed and
      every stored width is shorter than the frame gap. */
  predicate Consistent(s: DecoderState)
  {
    && WellFormed(s)
    && forall i :: 0 <= i < |s.channels| ==> s.channels[i] < BLANK_PPM_SIGNAL
  }

  /** The statics' initial values. */
  function Initial(): (s: DecoderState)
    ensures Consistent(s)
    ensures s.lastTick == 1 && s.channelIndex == 0
    ensures forall i :: 0 <= i < MAX_NUM_CHANNELS ==> s.channels[i] == 0
  {
    DecoderState(1, FIRST_CHANNEL_INDEX, [0, 0, 0, 0, 0, 0])
  }

  /** `current_tick.wrapping_sub(last_tick)`: the number of ticks the 16-bit
      counter advanced from `last` to reach `current`. */
  function ElapsedTicks(last: U16, current: U16): (t: U16)
    ensures WrapU16(last + t) == current
    ensures last <= current ==> t == current - last
  {
    WrapU16(current - last)
  }

  /** `get_microseconds_from_last_interruption`'s result: ticks times four,
      computed in u16, so only the elapsed ticks modulo 2^14 survive. */
  function MicrosecondsBetween(last: U16, current: U16): (us: U16)
    ensures us == MICROSECONDS_PER_TICK * (ElapsedTicks(last, current) % 0x4000)
    ensures ElapsedTicks(last, current) < 0x4000 ==> us == MICROSECONDS_PER_TICK * ElapsedTicks(last, current)
  {
    WrapU16(ElapsedTicks(last, current) * MICROSECONDS_PER_TICK)
  }

  /** `is_reading_channels`: a channel pulse, as opposed to a frame gap. */
  function IsReadingChannels(us: U16): (b: bool)
    ensures b <==> us < 4000
  {
    us < BLANK_PPM_SIGNAL
  }

  /** One edge interrupt (the body of INT0/INT1) on the decoder's state. */
  function Edge(s: DecoderState, currentTick: U16): (r: DecoderState)
    requires WellFormed(s)
    ensures WellFormed(r)
    ensures Consistent(s) ==> Consistent(r)
    ensures r.lastTick == currentTick
    ensures forall i :: 0 <= i < MAX_NUM_CHANNELS && i != s.channelIndex ==> r.channels[i] == s.channels[i]
    ensures !IsReadingChannels(MicrosecondsBetween(s.lastTick, currentTick)) ==>
              r.channelIndex == FIRST_CHANNEL_INDEX && r.channels == s.channels
    ensures IsReadingChannels(MicrosecondsBetween(s.lastTick, currentTick)) && s.channelIndex < MAX_NUM_CHANNELS ==>
              r.channelIndex == s.channelIndex + 1 && r.channels[s.channelIndex] == MicrosecondsBetween(s.lastTick, currentTick)
    ensures IsReadingChannels(MicrosecondsBetween(s.lastTick, currentTick)) && s.channelIndex == MAX_NUM_CHANNELS ==>
              r.channelIndex == MAX_NUM_CHANNELS && r.channels == s.channels
  {
    var us := MicrosecondsBetween(s.lastTick, currentTick);
    if IsReadingChannels(us) then
      var id := s.channelIndex;
      if id < MAX_NUM_CHANNELS then DecoderState(currentTick, id + 1, s.channels[id := us])
      else DecoderState(currentTick, id, s.channels)
    else
      DecoderState(currentTick, FIRST_CHANNEL_INDEX, s.channels)
  }

  /** The state after a sequence of edges, at the given tick counts. */
  function Run(s: DecoderState, ticks: seq<U16>): (r: DecoderState)
    requires WellFormed(s)
    ensures WellFormed(r)
    ensures Consistent(s) ==> Consistent(r)
    ensures |ticks| > 0 ==> r.lastTick == ticks[|ticks| - 1]
    ensures |ticks| == 0 ==> r == s
    decreases |ticks|
  {
    if ticks == [] then s else Run(Edge(s, ticks[0]), ticks[1..])
  }

  /** The elapsed microseconds each edge of `ticks` measures, the first one
      from `last`. */
  function Pulses(last: U16, ticks: seq<U16>): (ps: seq<U16>)
    ensures |ps| == |ticks|
    ensures |ticks| > 0 ==> ps[0] == MicrosecondsBetween(last, ticks[0])
    decreases |ticks|
  {
    if ticks == [] then [] else [MicrosecondsBetween(last, ticks[0])] + Pulses(ticks[0], ticks[1..])
  }

  /** A run of channel pulses fills the slots from the current index on, in
      order, until the index saturates at 6; pulses after the sixth are
      dropped, and the slots the run does not reach keep their values. */
  lemma {:induction false} PulsesFillSlots(s: DecoderState, ticks: seq<U16>)
    requires WellFormed(s)
    requires forall j :: 0 <= j < |ticks| ==> IsReadingChannels(Pulses(s.lastTick, ticks)[j])
    ensures var r := Run(s, ticks);
      var n := Min(s.channelIndex + |ticks|, MAX_NUM_CHANNELS);
      && r.channelIndex == n
      && forall i :: 0 <= i < MAX_NUM_CHANNELS ==>
           r.channels[i] == if s.channelIndex <= i < n then Pulses(s.lastTick, ticks)[i - s.channelIndex] else s.channels[i]
    decreases |ticks|
  {
    if ticks != [] {
      var s' := Edge(s, ticks[0]);
      var ps := Pulses(s.lastTick, ticks);
      assert ps == [ps[0]] + Pulses(ticks[0], ticks[1..]);
      forall j | 0 <= j < |ticks| - 1
        ensures IsReadingChannels(Pulses(s'.lastTick, ticks[1..])[j])
      {
        assert ps[j + 1] == Pulses(s'.lastTick, ticks[1..])[j];
      }
      PulsesFillSlots(s', ticks[1..]);
      var r := Run(s, ticks);
      assert r == Run(s', ticks[1..]);
      var n := Min(s.channelIndex + |ticks|, MAX_NUM_CHANNELS);
      forall i | 0 <= i < MAX_NUM_CHANNELS
        ensures r.channels[i] == if s.channelIndex <= i < n then ps[i - s.channelIndex] else s.channels[i]
      {
        if s.channelIndex < i < n {
          assert ps[i - s.channelIndex] == Pulses(s'.lastTick, ticks[1..])[i - s'.channelIndex];
        }
      }
    }
  }

  /** Resynchronisation: after a frame gap, the next k <= 6 pulses land in
      slots 0..k-1 in order, whatever the decoder's state before the gap;
      slots k..5 keep their (possibly stale) values. */
  lemma Resync(s: DecoderState, gap: U16, ticks: seq<U16>)
    requires WellFormed(s)
    requires !IsReadingChannels(MicrosecondsBetween(s.lastTick, gap))
    requires |ticks| <= MAX_NUM_CHANNELS
    requires forall j :: 0 <= j < |ticks| ==> IsReadingChannels(Pulses(gap, ticks)[j])
    ensures Edge(s, gap).channelIndex == 0
    ensures var r := Run(s, [gap] + ticks);
      && r.channelIndex == |ticks|
      && (forall i :: 0 <= i < |ticks| ==> r.channels[i] == Pulses(gap, ticks)[i])
      && (forall i :: |ticks| <= i < MAX_NUM_CHANNELS ==> r.channels[i] == s.channels[i])
  {
    var s' := Edge(s, gap);
    GapThenRun(s, gap, ticks);
    PulsesFillSlots(s', ticks);
    var r := Run(s', ticks);
    assert Min(s'.channelIndex + |ticks|, MAX_NUM_CHANNELS) == |ticks|;
    forall i | 0 <= i < |ticks|
      ensures r.channels[i] == Pulses(gap, ticks)[i]
    {
      assert 0 <= i < MAX_NUM_CHANNELS;
    }
    forall i | |ticks| <= i < MAX_NUM_CHANNELS
      ensures r.channels[i] == s.channels[i]
    {
    }
  }

  /** A gap edge restarts the index at 0 and keeps the widths; the run that
      follows starts from there. */
  lemma GapThenRun(s: DecoderState, gap: U16, ticks: seq<U16>)
    requires WellFormed(s)
    requires !IsReadingChannels(MicrosecondsBetween(s.lastTick, gap))
    ensures Edge(s, gap) == DecoderState(gap, FIRST_CHANNEL_INDEX, s.channels)
    ensures Run(s, [gap] + ticks) == Run(Edge(s, gap), ticks)
  {
    assert ([gap] + ticks)[1..] == ticks;
  }

  /** The u16 product `elapsed_ticks * 4` wraps, so an interval is read as a
      channel pulse exactly when its tick count modulo 16384 is below 1000:
      an idle line of 16384..17383 ticks (over 65 ms, far beyond the frame
      gap) is stored as a channel value like a short pulse. */
  lemma LongGapReadAsPulse(s: DecoderState, tick: U16)
    requires WellFormed(s)
    ensures IsReadingChannels(MicrosecondsBetween(s.lastTick, tick)) <==> ElapsedTicks(s.lastTick, tick) % 0x4000 < 1000
    ensures ElapsedTicks(s.lastTick, tick) % 0x4000 < 1000 && s.channelIndex < MAX_NUM_CHANNELS ==>
      && Edge(s, tick).channelIndex == s.channelIndex + 1
      && Edge(s, tick).channels[s.channelIndex] == 4 * (ElapsedTicks(s.lastTick, tick) % 0x4000)
  {
  }

  /** The shortest such gap: 16384 ticks (65536 us) measures 0 us and is
      stored as a zero channel value. */
  lemma LongGapExample(s: DecoderState)
    requires WellFormed(s) && s.lastTick == 0 && s.channelIndex < MAX_NUM_CHANNELS
    ensures ElapsedTicks(0, 0x4000) == 0x4000
    ensures MicrosecondsBetween(0, 0x4000) == 0
    ensures Edge(s, 0x4000).channels[s.channelIndex] == 0
  {
  }

  /** The decoder: the three statics shared between the edge interrupt and
      the main loop, with one method per helper of the interrupt body. Each
      method is one critical section. */
  class Decoder {
    var lastTick: U16
    var channelIndex: U8
    const channelValues: array<U16>

    ghost predicate Valid()
      reads this, channelValues
    {
      && channelValues.Length == MAX_NUM_CHANNELS
      && Consistent(State())
    }

    ghost function State(): DecoderState
      reads this, channelValues
    {
      DecoderState(lastTick, channelIndex, channelValues[..])
    }

    constructor ()
      ensures Valid() && fresh(channelValues)
      ensures State() == Initial()
    {
      lastTick := 1;
      channelIndex := FIRST_CHANNEL_INDEX;
      channelValues := new U16[MAX_NUM_CHANNELS](_ => 0);
      new;
      assert channelValues[..] == [0, 0, 0, 0, 0, 0];
    }

    /** `get_microseconds_from_last_interruption`: records the tick and
        returns the elapsed microseconds since the previous edge. */
    method MicrosecondsFromLastInterruption(currentTick: U16) returns (us: U16)
      modifies this`lastTick
      ensures lastTick == currentTick
      ensures us == MicrosecondsBetween(old(lastTick), currentTick)
    {
      var last := lastTick;
      lastTick := currentTick;
      var elapsedTicks := WrapU16(currentTick - last);
      us := WrapU16(elapsedTicks * MICROSECONDS_PER_TICK);
    }

    /** `reset_channels`. */
    method ResetChannels()
      modifies this`channelIndex
      ensures channelIndex == FIRST_CHANNEL_INDEX
    {
      channelIndex := FIRST_CHANNEL_INDEX;
    }

    /** `set_next_channel`: advances the index past `idChannel`, unless the
        frame is already complete. */
    method SetNextChannel(idChannel: U8)
      modifies this`channelIndex
      ensures channelIndex == if idChannel < MAX_NUM_CHANNELS then idChannel + 1 else old(channelIndex)
    {
      if idChannel < MAX_NUM_CHANNELS {
        channelIndex := idChannel + 1;
      }
    }

    /** `get_current_channel`. */
    method GetCurrentChannel() returns (idChannel: U8)
      ensures idChannel == channelIndex
    {
      idChannel := channelIndex;
    }

    /** `set_channel_value`: stores `value` in slot `idChannel` if there is
        such a slot. */
    method SetChannelValue(idChannel: U8, value: U16)
      requires channelValues.Length == MAX_NUM_CHANNELS
      modifies channelValues
      ensures channelValues[..] ==
        if idChannel < MAX_NUM_CHANNELS then old(channelValues[..])[idChannel := value] else old(channelValues[..])
    {
      if idChannel < MAX_NUM_CHANNELS {
        channelValues[idChannel] := value;
      }
    }

    /** `process_channel`: a pulse of width `value` for the current slot. */
    method ProcessChannel(value: U16)
      requires channelValues.Length == MAX_NUM_CHANNELS
      modifies this`channelIndex, channelValues
      ensures var id := old(channelIndex);
        && channelIndex == (if id < MAX_NUM_CHANNELS then id + 1 else id)
        && channelValues[..] == if id < MAX_NUM_CHANNELS then old(channelValues[..])[id := value] else old(channelValues[..])
    {
      var currentIdChannel := GetCurrentChannel();
      SetChannelValue(currentIdChannel, value);
      SetNextChannel(currentIdChannel);
    }

    /** The edge interrupt (INT0 or INT1) at timer count `currentTick`. */
    method OnEdge(currentTick: U16)
      requires Valid()
      modifies this, channelValues
      ensures Valid()
      ensures State() == Edge(old(State()), currentTick)
    {
      var timeElapseInMicroseconds := MicrosecondsFromLastInterruption(currentTick);
      if IsReadingChannels(timeElapseInMicroseconds) {
        ProcessChannel(timeElapseInMicroseconds);
      } else {
        ResetChannels();
      }
    }

    /** `Ppm::get_channels`: a copy of the table, enumerated. */
    method GetChannels() returns (channels: seq<(int, U16)>)
      requires Valid()
      ensures |channels| == MAX_NUM_CHANNELS
      ensures forall i :: 0 <= i < MAX_NUM_CHANNELS ==> channels[i] == (i, channelValues[i])
      ensures forall i :: 0 <= i < MAX_NUM_CHANNELS ==> channels[i].1 < BLANK_PPM_SIGNAL
    {
      channels := seq(MAX_NUM_CHANNELS, i requires 0 <= i < MAX_NUM_CHANNELS reads channelValues => (i, channelValues[i]));
    }
  }
}
