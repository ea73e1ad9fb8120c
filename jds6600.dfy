/**
 * The JDS6600 driver: two channels, commands of the form `:wNN=….`, the
 * output flags, load impedances and divider coefficients kept in
 * two-slot lists that the setters update in place. The serial port is a
 * state and a log of the commands written to it.
 */
module Jds6600 {
  import opened Wrappers
  import opened AwgCommon

  /** CHANNELS: 0 (both), 1 and 2; None also means both. */
  const Channels: set<int> := {0, 1, 2}

  /** `:w20=<ch1>,<ch2>.` with each flag written as 1 or 0. */
  function EnableCommand(flags: seq<bool>): Command
    requires |flags| == 2
  {
    Command(":w20=", [Flag(flags[0]), Flag(flags[1])])
  }

  /** `:w23=<freq>,0.` and/or `:w24=<freq>,0.`, the frequency as "%.2f" without its point. */
  function FrequencyCommands(ch: Channel, freq: real): seq<Command>
  {
    Routed(ch, Command(":w23=", [Digits(freq, 2), Int(0)]), Command(":w24=", [Digits(freq, 2), Int(0)]))
  }

  /** The phase in tenths of a degree, a negative phase taken from 360. */
  function PhaseCode(phase: real): int
  {
    RoundHalfAway(WrapPhase(phase) * 10.0)
  }

  /** `:w31=<tenths>.`, always for channel 2. */
  function PhaseCommand(phase: real): Command
  {
    Command(":w31=", [Int(PhaseCode(phase))])
  }

  /** `:w21=<type>.` and/or `:w22=<type>.`. */
  function WaveCommands(ch: Channel, w: WaveType): seq<Command>
  {
    Routed(ch, Command(":w21=", [Wave(w)]), Command(":w22=", [Wave(w)]))
  }

  /** `:w25=<amp>.` and/or `:w26=<amp>.`, the amplitude as "%.3f" without its point. */
  function AmplitudeCommands(ch: Channel, amp: real): seq<Command>
  {
    Routed(ch, Command(":w25=", [Digits(amp, 3)]), Command(":w26=", [Digits(amp, 3)]))
  }

  /** The offset register value: 1000 plus the offset in truncated hundredths of a volt. */
  function OffsetCode(offset: real): int
  {
    1000 + Trunc(offset * 100.0)
  }

  /** `:w27=<code>.` and/or `:w28=<code>.`. */
  function OffsetCommands(ch: Channel, offset: real): seq<Command>
  {
    Routed(ch, Command(":w27=", [Int(OffsetCode(offset))]), Command(":w28=", [Int(OffsetCode(offset))]))
  }

  /** Registers of channel 1 (wave, frequency, amplitude, offset). */
  predicate OnFirst(c: Command)
  {
    c.head in {":w21=", ":w23=", ":w25=", ":w27="}
  }

  /** Registers of channel 2. */
  predicate OnSecond(c: Command)
  {
    c.head in {":w22=", ":w24=", ":w26=", ":w28="}
  }

  /** The commands of the four per-channel setters, in the order the parser can issue them. */
  function ChannelCommands(ch: Channel, freq: real, w: WaveType, amp: real, offset: real): seq<Command>
  {
    FrequencyCommands(ch, freq) + WaveCommands(ch, w) + AmplitudeCommands(ch, amp) + OffsetCommands(ch, offset)
  }

  class JDS6600 {
    const portName: string
    var port: PortState
    var sent: seq<Command>
    var channelOn: seq<bool>
    var rLoad: seq<Impedance>
    var coeff: seq<real>

    predicate Valid()
      reads this
    {
      |channelOn| == 2 && |rLoad| == 2 && |coeff| == 2
    }

    /** Both outputs off, 50 ohm loads, coefficients 1, no port yet. */
    constructor(portName: string)
      ensures Valid() && this.portName == portName && port == Unopened && sent == []
      ensures channelOn == [false, false] && rLoad == [Ohms(50.0), Ohms(50.0)] && coeff == [1.0, 1.0]
    {
      this.portName := portName;
      port := Unopened;
      sent := [];
      channelOn := [false, false];
      rLoad := [Ohms(50.0), Ohms(50.0)];
      coeff := [1.0, 1.0];
    }

    method Connect()
      modifies this`port
      ensures port == Open
    {
      port := Open;
    }

    /** Closing fails when no port was ever opened. */
    method Disconnect() returns (err: Option<Fault>)
      modifies this`port
      ensures old(port) == Unopened ==> err == Some(NoPort) && port == Unopened
      ensures old(port) != Unopened ==> err == None && port == Closed
    {
      if port == Unopened {
        err := Some(NoPort);
      } else {
        err := None;
        port := Closed;
      }
    }

    method SendCommand(c: Command) returns (err: Option<Fault>)
      modifies this`sent
      ensures err == WriteFault(port)
      ensures sent == old(sent) + Delivered(port, [c])
    {
      err := WriteFault(port);
      if err.None? {
        sent := sent + [c];
      }
    }

    /** The channel-1 command for channel 0, 1 or None, then the channel-2 command for 0, 2 or None. */
    method SendRouted(ch: Channel, first: Command, second: Command) returns (err: Option<Fault>)
      modifies this`sent
      ensures err == Outcome(port, Routed(ch, first, second))
      ensures sent == old(sent) + Delivered(port, Routed(ch, first, second))
    {
      err := None;
      if ToFirst(ch) {
        err := SendCommand(first);
      }
      if ToSecond(ch) && err.None? {
        err := SendCommand(second);
      }
    }

    method EnableOutput(ch: Channel, on: bool) returns (err: Option<Fault>)
      requires Valid()
      modifies this`channelOn, this`sent
      ensures Valid()
      ensures !ValidChannel(ch, Channels) ==> err == Some(UnknownChannel) && channelOn == old(channelOn) && sent == old(sent)
      ensures ValidChannel(ch, Channels) ==>
        && channelOn == EnabledAfter(old(channelOn), ch, on)
        && err == WriteFault(port)
        && sent == old(sent) + Delivered(port, [EnableCommand(channelOn)])
    {
      if !ValidChannel(ch, Channels) {
        return Some(UnknownChannel);
      }
      if ch.Some? && ch.value != 0 {
        channelOn := channelOn[ch.value - 1 := on];
      } else {
        channelOn := [on, on];
      }
      err := SendCommand(EnableCommand(channelOn));
    }

    method SetFrequency(ch: Channel, freq: real) returns (err: Option<Fault>)
      modifies this`sent
      ensures !ValidChannel(ch, Channels) ==> err == Some(UnknownChannel) && sent == old(sent)
      ensures ValidChannel(ch, Channels) ==>
        && err == Outcome(port, FrequencyCommands(ch, freq))
        && sent == old(sent) + Delivered(port, FrequencyCommands(ch, freq))
    {
      if !ValidChannel(ch, Channels) {
        return Some(UnknownChannel);
      }
      err := SendRouted(ch, Command(":w23=", [Digits(freq, 2), Int(0)]), Command(":w24=", [Digits(freq, 2), Int(0)]));
    }

    /** No channel check: the phase always goes to channel 2's register. */
    method SetPhase(phase: real) returns (err: Option<Fault>)
      modifies this`sent
      ensures err == WriteFault(port)
      ensures sent == old(sent) + Delivered(port, [PhaseCommand(phase)])
    {
      var p := phase;
      if p < 0.0 {
        p := p + 360.0;
      }
      err := SendCommand(Command(":w31=", [Int(RoundHalfAway(p * 10.0))]));
    }

    method SetWaveType(ch: Channel, w: WaveType) returns (err: Option<Fault>)
      modifies this`sent
      ensures !ValidChannel(ch, Channels) ==> err == Some(UnknownChannel) && sent == old(sent)
      ensures ValidChannel(ch, Channels) && !InWaveTypes(w) ==> err == Some(InvalidWaveType) && sent == old(sent)
      ensures ValidChannel(ch, Channels) && InWaveTypes(w) ==>
        && err == Outcome(port, WaveCommands(ch, w))
        && sent == old(sent) + Delivered(port, WaveCommands(ch, w))
    {
      if !ValidChannel(ch, Channels) {
        return Some(UnknownChannel);
      }
      if !InWaveTypes(w) {
        return Some(InvalidWaveType);
      }
      err := SendRouted(ch, Command(":w21=", [Wave(w)]), Command(":w22=", [Wave(w)]));
    }

    /** set_amplitue: the amplitude is divided by the channel's coefficient first. */
    method SetAmplitue(ch: Channel, amp: real) returns (err: Option<Fault>)
      requires Valid()
      modifies this`sent
      ensures !ValidChannel(ch, Channels) ==> err == Some(UnknownChannel) && sent == old(sent)
      ensures ValidChannel(ch, Channels) && Adjusted(coeff, ch, amp).Failure? ==>
        err == Some(Adjusted(coeff, ch, amp).error) && sent == old(sent)
      ensures ValidChannel(ch, Channels) && Adjusted(coeff, ch, amp).Success? ==>
        var a := Adjusted(coeff, ch, amp).value;
        err == Outcome(port, AmplitudeCommands(ch, a)) && sent == old(sent) + Delivered(port, AmplitudeCommands(ch, a))
    {
      if !ValidChannel(ch, Channels) {
        return Some(UnknownChannel);
      }
      var adjusted := Adjusted(coeff, ch, amp);
      if adjusted.Failure? {
        return Some(adjusted.error);
      }
      var a := adjusted.value;
      err := SendRouted(ch, Command(":w25=", [Digits(a, 3)]), Command(":w26=", [Digits(a, 3)]));
    }

    /** The offset is divided by the channel's coefficient, then encoded around 1000. */
    method SetOffset(ch: Channel, offset: real) returns (err: Option<Fault>)
      requires Valid()
      modifies this`sent
      ensures !ValidChannel(ch, Channels) ==> err == Some(UnknownChannel) && sent == old(sent)
      ensures ValidChannel(ch, Channels) && Adjusted(coeff, ch, offset).Failure? ==>
        err == Some(Adjusted(coeff, ch, offset).error) && sent == old(sent)
      ensures ValidChannel(ch, Channels) && Adjusted(coeff, ch, offset).Success? ==>
        var o := Adjusted(coeff, ch, offset).value;
        err == Outcome(port, OffsetCommands(ch, o)) && sent == old(sent) + Delivered(port, OffsetCommands(ch, o))
    {
      if !ValidChannel(ch, Channels) {
        return Some(UnknownChannel);
      }
      var adjusted := Adjusted(coeff, ch, offset);
      if adjusted.Failure? {
        return Some(adjusted.error);
      }
      var code := 1000 + Trunc(adjusted.value * 100.0);
      err := SendRouted(ch, Command(":w27=", [Int(code)]), Command(":w28=", [Int(code)]));
    }

    /**
     * Stores z at index channel-1 (channel 0 is channel 2's slot), then its
     * divider coefficient; z = -50 fails after the load is stored.
     */
    method SetLoadImpedance(ch: Channel, z: Impedance) returns (err: Option<Fault>)
      requires Valid()
      modifies this`rLoad, this`coeff
      ensures Valid()
      ensures !ValidChannel(ch, Channels) ==> err == Some(UnknownChannel) && rLoad == old(rLoad) && coeff == old(coeff)
      ensures ValidChannel(ch, Channels) && ch.None? ==> err == Some(NoneIndex) && rLoad == old(rLoad) && coeff == old(coeff)
      ensures ValidChannel(ch, Channels) && ch.Some? ==>
        var k := Slot(ch).value;
        && rLoad == old(rLoad)[k := z]
        && (DividerCoefficient(z).Failure? ==> err == Some(ZeroDivision) && coeff == old(coeff))
        && (DividerCoefficient(z).Success? ==> err == None && coeff == old(coeff)[k := DividerCoefficient(z).value])
    {
      if !ValidChannel(ch, Channels) {
        return Some(UnknownChannel);
      }
      var slot := Slot(ch);
      if slot.Failure? {
        return Some(slot.error);
      }
      rLoad := rLoad[slot.value := z];
      var c := DividerCoefficient(z);
      if c.Failure? {
        return Some(c.error);
      }
      coeff := coeff[slot.value := c.value];
      err := None;
    }

    /** Clears both flags, opens the port and switches both outputs off. */
    method Initialize() returns (err: Option<Fault>)
      requires Valid()
      modifies this`channelOn, this`port, this`sent
      ensures Valid() && port == Open && channelOn == [false, false] && err == None
      ensures sent == old(sent) + [EnableCommand([false, false])]
    {
      channelOn := [false, false];
      Connect();
      err := EnableOutput(None, false);
    }
  }

  /**
   * Channel 1 touches only the w21/w23/w25/w27 registers, channel 2 only
   * w22/w24/w26/w28, and 0 or None both, channel 1's command first.
   */
  lemma ChannelRouting(ch: Channel, freq: real, w: WaveType, amp: real, offset: real)
    ensures ch == Some(1) ==> forall c <- ChannelCommands(ch, freq, w, amp, offset) :: OnFirst(c)
    ensures ch == Some(2) ==> forall c <- ChannelCommands(ch, freq, w, amp, offset) :: OnSecond(c)
    ensures ch == None || ch == Some(0) ==>
      var cs := ChannelCommands(ch, freq, w, amp, offset);
      |cs| == 8 && forall k :: 0 <= k < 4 ==> OnFirst(cs[2 * k]) && OnSecond(cs[2 * k + 1])
    ensures ch.Some? && ch.value !in Channels ==> ChannelCommands(ch, freq, w, amp, offset) == []
  {
    var f1, f2 := Command(":w23=", [Digits(freq, 2), Int(0)]), Command(":w24=", [Digits(freq, 2), Int(0)]);
    var w1, w2 := Command(":w21=", [Wave(w)]), Command(":w22=", [Wave(w)]);
    var a1, a2 := Command(":w25=", [Digits(amp, 3)]), Command(":w26=", [Digits(amp, 3)]);
    var o1, o2 := Command(":w27=", [Int(OffsetCode(offset))]), Command(":w28=", [Int(OffsetCode(offset))]);
    assert OnFirst(f1) && OnFirst(w1) && OnFirst(a1) && OnFirst(o1);
    assert OnSecond(f2) && OnSecond(w2) && OnSecond(a2) && OnSecond(o2);
    if ch == Some(1) || ch == Some(2) {
      OneChannelRouted(ch, f1, f2, w1, w2, a1, a2, o1, o2);
    } else if ch == None || ch == Some(0) {
      BothChannelsRouted(ch, f1, f2, w1, w2, a1, a2, o1, o2);
    }
  }

  /** Four routed pairs for a single channel: only that channel's registers. */
  lemma OneChannelRouted(ch: Channel, x1: Command, y1: Command, x2: Command, y2: Command,
                         x3: Command, y3: Command, x4: Command, y4: Command)
    requires ch == Some(1) || ch == Some(2)
    requires OnFirst(x1) && OnFirst(x2) && OnFirst(x3) && OnFirst(x4)
    requires OnSecond(y1) && OnSecond(y2) && OnSecond(y3) && OnSecond(y4)
    ensures var cs := Routed(ch, x1, y1) + Routed(ch, x2, y2) + Routed(ch, x3, y3) + Routed(ch, x4, y4);
      && (ch == Some(1) ==> forall c <- cs :: OnFirst(c))
      && (ch == Some(2) ==> forall c <- cs :: OnSecond(c))
  {
  }

  /** Four routed pairs for both channels: eight commands alternating channel 1, channel 2. */
  lemma BothChannelsRouted(ch: Channel, x1: Command, y1: Command, x2: Command, y2: Command,
                           x3: Command, y3: Command, x4: Command, y4: Command)
    requires ch == None || ch == Some(0)
    requires OnFirst(x1) && OnFirst(x2) && OnFirst(x3) && OnFirst(x4)
    requires OnSecond(y1) && OnSecond(y2) && OnSecond(y3) && OnSecond(y4)
    ensures var cs := Routed(ch, x1, y1) + Routed(ch, x2, y2) + Routed(ch, x3, y3) + Routed(ch, x4, y4);
      |cs| == 8 && forall k :: 0 <= k < 4 ==> OnFirst(cs[2 * k]) && OnSecond(cs[2 * k + 1])
  {
    var cs := Routed(ch, x1, y1) + Routed(ch, x2, y2) + Routed(ch, x3, y3) + Routed(ch, x4, y4);
    assert cs[0] == x1 && cs[1] == y1 && cs[2] == x2 && cs[3] == y2;
    assert cs[4] == x3 && cs[5] == y3 && cs[6] == x4 && cs[7] == y4;
    forall k | 0 <= k < 4
      ensures OnFirst(cs[2 * k]) && OnSecond(cs[2 * k + 1])
    {
      if k == 0 {
      } else if k == 1 {
      } else if k == 2 {
      } else {
      }
    }
  }

  /**
   * The offset register is 1000 exactly for offsets under a hundredth of a
   * volt, above 1000 for positive offsets from 0.01 V and below it for
   * negative ones from -0.01 V; the documented +-9.99 V span maps into 1..1999.
   */
  lemma OffsetCodeMeaning(offset: real)
    ensures OffsetCode(offset) == 1000 <==> -0.01 < offset < 0.01
    ensures offset >= 0.01 ==> OffsetCode(offset) > 1000
    ensures offset <= -0.01 ==> OffsetCode(offset) < 1000
    ensures -9.99 <= offset <= 9.99 ==> 1 <= OffsetCode(offset) <= 1999
    ensures OffsetCode(0.0) == 1000
  {
  }

  /**
   * Phases from -360 up to 360 degrees encode to 0..3600 tenths, and a
   * non-negative phase encodes to its own tenths, rounded.
   */
  lemma PhaseCodeRange(phase: real)
    ensures -360.0 <= phase < 360.0 ==> 0 <= PhaseCode(phase) <= 3600
    ensures phase >= 0.0 ==> PhaseCode(phase) as real - 0.5 <= phase * 10.0 < PhaseCode(phase) as real + 0.5
    ensures -360.0 <= phase < 0.0 ==> PhaseCode(phase) == PhaseCode(phase + 360.0)
  {
  }

  /**
   * After set_load_impedance(channel, z) on a positive z, set_amplitue sends
   * the requested amplitude scaled by (z + 50)/z, so twice it at 50 ohms.
   */
  lemma AmplitudeOnLoad(coeffs: seq<real>, ch: Channel, z: real, amp: real)
    requires |coeffs| == 2 && (ch == Some(1) || ch == Some(2)) && z > 0.0
    requires coeffs[Slot(ch).value] == DividerCoefficient(Ohms(z)).value
    ensures Adjusted(coeffs, ch, amp).Success?
    ensures AmplitudeCommands(ch, Adjusted(coeffs, ch, amp).value) ==
      if ch == Some(1) then [Command(":w25=", [Digits(amp * (z + RIn) / z, 3)])]
      else [Command(":w26=", [Digits(amp * (z + RIn) / z, 3)])]
    ensures z == 50.0 ==> Adjusted(coeffs, ch, amp).value == 2.0 * amp
  {
    AdjustedOnLoad(coeffs, ch, Ohms(z), amp);
    DividerNetScale(Ohms(z), amp);
    var a := Adjusted(coeffs, ch, amp).value;
    assert a == amp * (z + RIn) / z;
  }
}
