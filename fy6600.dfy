/**
 * The FY6600 driver: per-channel mnemonics WM… (channel 1) and WF…
 * (channel 2), the output flags, load impedances and divider coefficients
 * kept in two-slot lists that the setters update in place.
 */
module Fy6600 {
  import opened Wrappers
  import opened AwgCommon

  /** CHANNELS: 0 (both), 1 and 2; None is let through as well. */
  const Channels: set<int> := {0, 1, 2}

  /** `WMN<ch1>` then `WFN<ch2>`: both flags are always written. */
  function EnableCommands(flags: seq<bool>): seq<Command>
    requires |flags| == 2
  {
    [Command("WMN", [Flag(flags[0])]), Command("WFN", [Flag(flags[1])])]
  }

  /** The frequency as "%.2f" without its point, followed by four zeros. */
  function FrequencyArgs(freq: real): seq<Value>
  {
    [Digits(freq, 2), Str("0000")]
  }

  /**
   * `WMF…` for channel 0, 1 or None, then `WFF…` for channel 0 or 2 only:
   * the channel-2 branch leaves None out.
   */
  function FrequencyCommands(ch: Channel, freq: real): seq<Command>
  {
    (if ToFirst(ch) then [Command("WMF", FrequencyArgs(freq))] else [])
    + (if ch == Some(0) || ch == Some(2) then [Command("WFF", FrequencyArgs(freq))] else [])
  }

  /** `WFP<phase>`, the phase printed with "%s" after a negative one gets +360. */
  function PhaseCommand(phase: real): Command
  {
    Command("WFP", [Float(WrapPhase(phase))])
  }

  /** `WMW00` and/or `WFW00`: always a sine, whatever type was asked for. */
  function WaveCommands(ch: Channel): seq<Command>
  {
    Routed(ch, Command("WMW00", []), Command("WFW00", []))
  }

  /** `WMA<amp>` and/or `WFA<amp>`, the amplitude as "%.3f". */
  function AmplitudeCommands(ch: Channel, amp: real): seq<Command>
  {
    Routed(ch, Command("WMA", [Fixed(amp, 3)]), Command("WFA", [Fixed(amp, 3)]))
  }

  /** `WMO<offset>` and/or `WFO<offset>`, the offset printed with "%s". */
  function OffsetCommands(ch: Channel, offset: real): seq<Command>
  {
    Routed(ch, Command("WMO", [Float(offset)]), Command("WFO", [Float(offset)]))
  }

  class FY6600 {
    const portName: string
    var port: PortState
    var sent: seq<Command>
    var channelOn: seq<bool>
    var rLoad: seq<Impedance>
    var coeff: seq<real>

    predicate Valid()
      reads this
    {
      |channelOn| == 2 && |rLoad| == 2 && |coeff| == 2
    }

    /** Both outputs off, 50 ohm loads, coefficients 1, no port yet. */
    constructor(portName: string)
      ensures Valid() && this.portName == portName && port == Unopened && sent == []
      ensures channelOn == [false, false] && rLoad == [Ohms(50.0), Ohms(50.0)] && coeff == [1.0, 1.0]
    {
      this.portName := portName;
      port := Unopened;
      sent := [];
      channelOn := [false, false];
      rLoad := [Ohms(50.0), Ohms(50.0)];
      coeff := [1.0, 1.0];
    }

    method Connect()
      modifies this`port
      ensures port == Open
    {
      port := Open;
    }

    /** Closing fails when no port was ever opened. */
    method Disconnect() returns (err: Option<Fault>)
      modifies this`port
      ensures old(port) == Unopened ==> err == Some(NoPort) && port == Unopened
      ensures old(port) != Unopened ==> err == None && port == Closed
    {
      if port == Unopened {
        err := Some(NoPort);
      } else {
        err := None;
        port := Closed;
      }
    }

    method SendCommand(c: Command) returns (err: Option<Fault>)
      modifies this`sent
      ensures err == WriteFault(port)
      ensures sent == old(sent) + Delivered(port, [c])
    {
      err := WriteFault(port);
      if err.None? {
        sent := sent + [c];
      }
    }

    /** The channel-1 command for channel 0, 1 or None, then the channel-2 command for 0, 2 or None. */
    method SendRouted(ch: Channel, first: Command, second: Command) returns (err: Option<Fault>)
      modifies this`sent
      ensures err == Outcome(port, Routed(ch, first, second))
      ensures sent == old(sent) + Delivered(port, Routed(ch, first, second))
    {
      err := None;
      if ToFirst(ch) {
        err := SendCommand(first);
      }
      if ToSecond(ch) && err.None? {
        err := SendCommand(second);
      }
    }

    method EnableOutput(ch: Channel, on: bool) returns (err: Option<Fault>)
      requires Valid()
      modifies this`channelOn, this`sent
      ensures Valid()
      ensures !ValidChannel(ch, Channels) ==> err == Some(UnknownChannel) && channelOn == old(channelOn) && sent == old(sent)
      ensures ValidChannel(ch, Channels) ==>
        && channelOn == EnabledAfter(old(channelOn), ch, on)
        && err == WriteFault(port)
        && sent == old(sent) + Delivered(port, EnableCommands(channelOn))
    {
      if !ValidChannel(ch, Channels) {
        return Some(UnknownChannel);
      }
      if ch.Some? && ch.value != 0 {
        channelOn := channelOn[ch.value - 1 := on];
      } else {
        channelOn := [on, on];
      }
      err := SendCommand(Command("WMN", [Flag(channelOn[0])]));
      if err.None? {
        err := SendCommand(Command("WFN", [Flag(channelOn[1])]));
      }
    }

    method SetFrequency(ch: Channel, freq: real) returns (err: Option<Fault>)
      modifies this`sent
      ensures !ValidChannel(ch, Channels) ==> err == Some(UnknownChannel) && sent == old(sent)
      ensures ValidChannel(ch, Channels) ==>
        && err == Outcome(port, FrequencyCommands(ch, freq))
        && sent == old(sent) + Delivered(port, FrequencyCommands(ch, freq))
    {
      if !ValidChannel(ch, Channels) {
        return Some(UnknownChannel);
      }
      err := None;
      if ToFirst(ch) {
        err := SendCommand(Command("WMF", FrequencyArgs(freq)));
      }
      if (ch == Some(0) || ch == Some(2)) && err.None? {
        err := SendCommand(Command("WFF", FrequencyArgs(freq)));
      }
    }

    /** No channel check: the phase always goes to channel 2. */
    method SetPhase(phase: real) returns (err: Option<Fault>)
      modifies this`sent
      ensures err == WriteFault(port)
      ensures sent == old(sent) + Delivered(port, [PhaseCommand(phase)])
    {
      var p := phase;
      if p < 0.0 {
        p := p + 360.0;
      }
      err := SendCommand(Command("WFP", [Float(p)]));
    }

    method SetWaveType(ch: Channel, w: WaveType) returns (err: Option<Fault>)
      modifies this`sent
      ensures !ValidChannel(ch, Channels) ==> err == Some(UnknownChannel) && sent == old(sent)
      ensures ValidChannel(ch, Channels) && !InWaveTypes(w) ==> err == Some(InvalidWaveType) && sent == old(sent)
      ensures ValidChannel(ch, Channels) && InWaveTypes(w) ==>
        && err == Outcome(port, WaveCommands(ch))
        && sent == old(sent) + Delivered(port, WaveCommands(ch))
    {
      if !ValidChannel(ch, Channels) {
        return Some(UnknownChannel);
      }
      if !InWaveTypes(w) {
        return Some(InvalidWaveType);
      }
      err := SendRouted(ch, Command("WMW00", []), Command("WFW00", []));
    }

    /** set_amplitue: the amplitude is divided by the channel's coefficient first. */
    method SetAmplitue(ch: Channel, amp: real) returns (err: Option<Fault>)
      requires Valid()
      modifies this`sent
      ensures !ValidChannel(ch, Channels) ==> err == Some(UnknownChannel) && sent == old(sent)
      ensures ValidChannel(ch, Channels) && Adjusted(coeff, ch, amp).Failure? ==>
        err == Some(Adjusted(coeff, ch, amp).error) && sent == old(sent)
      ensures ValidChannel(ch, Channels) && Adjusted(coeff, ch, amp).Success? ==>
        var a := Adjusted(coeff, ch, amp).value;
        err == Outcome(port, AmplitudeCommands(ch, a)) && sent == old(sent) + Delivered(port, AmplitudeCommands(ch, a))
    {
      if !ValidChannel(ch, Channels) {
        return Some(UnknownChannel);
      }
      var adjusted := Adjusted(coeff, ch, amp);
      if adjusted.Failure? {
        return Some(adjusted.error);
      }
      var a := adjusted.value;
      err := SendRouted(ch, Command("WMA", [Fixed(a, 3)]), Command("WFA", [Fixed(a, 3)]));
    }

    /** The offset is divided by the channel's coefficient first. */
    method SetOffset(ch: Channel, offset: real) returns (err: Option<Fault>)
      requires Valid()
      modifies this`sent
      ensures !ValidChannel(ch, Channels) ==> err == Some(UnknownChannel) && sent == old(sent)
      ensures ValidChannel(ch, Channels) && Adjusted(coeff, ch, offset).Failure? ==>
        err == Some(Adjusted(coeff, ch, offset).error) && sent == old(sent)
      ensures ValidChannel(ch, Channels) && Adjusted(coeff, ch, offset).Success? ==>
        var o := Adjusted(coeff, ch, offset).value;
        err == Outcome(port, OffsetCommands(ch, o)) && sent == old(sent) + Delivered(port, OffsetCommands(ch, o))
    {
      if !ValidChannel(ch, Channels) {
        return Some(UnknownChannel);
      }
      var adjusted := Adjusted(coeff, ch, offset);
      if adjusted.Failure? {
        return Some(adjusted.error);
      }
      var o := adjusted.value;
      err := SendRouted(ch, Command("WMO", [Float(o)]), Command("WFO", [Float(o)]));
    }

    /**
     * Stores z at index channel-1 (channel 0 is channel 2's slot), then its
     * divider coefficient; z = -50 fails after the load is stored.
     */
    method SetLoadImpedance(ch: Channel, z: Impedance) returns (err: Option<Fault>)
      requires Valid()
      modifies this`rLoad, this`coeff
      ensures Valid()
      ensures !ValidChannel(ch, Channels) ==> err == Some(UnknownChannel) && rLoad == old(rLoad) && coeff == old(coeff)
      ensures ValidChannel(ch, Channels) && ch.None? ==> err == Some(NoneIndex) && rLoad == old(rLoad) && coeff == old(coeff)
      ensures ValidChannel(ch, Channels) && ch.Some? ==>
        var k := Slot(ch).value;
        && rLoad == old(rLoad)[k := z]
        && (DividerCoefficient(z).Failure? ==> err == Some(ZeroDivision) && coeff == old(coeff))
        && (DividerCoefficient(z).Success? ==> err == None && coeff == old(coeff)[k := DividerCoefficient(z).value])
    {
      if !ValidChannel(ch, Channels) {
        return Some(UnknownChannel);
      }
      var slot := Slot(ch);
      if slot.Failure? {
        return Some(slot.error);
      }
      rLoad := rLoad[slot.value := z];
      var c := DividerCoefficient(z);
      if c.Failure? {
        return Some(c.error);
      }
      coeff := coeff[slot.value := c.value];
      err := None;
    }

    /** Clears both flags, opens the port and switches both outputs off. */
    method Initialize() returns (err: Option<Fault>)
      requires Valid()
      modifies this`channelOn, this`port, this`sent
      ensures Valid() && port == Open && channelOn == [false, false] && err == None
      ensures sent == old(sent) + EnableCommands([false, false])
    {
      channelOn := [false, false];
      Connect();
      err := EnableOutput(None, false);
    }
  }

  /**
   * Channel None reaches only channel 1's frequency and both channels' wave
   * type; channel 0 reaches both frequencies. Amplitude and offset never
   * get as far as sending for None: indexing the coefficients with None
   * raises first, whatever the coefficients are.
   */
  lemma NoneFrequencyFirstOnly(freq: real, amp: real, offset: real, coeffs: seq<real>)
    requires |coeffs| == 2
    ensures FrequencyCommands(None, freq) == [Command("WMF", FrequencyArgs(freq))]
    ensures FrequencyCommands(Some(0), freq) == [Command("WMF", FrequencyArgs(freq)), Command("WFF", FrequencyArgs(freq))]
    ensures WaveCommands(None) == [Command("WMW00", []), Command("WFW00", [])]
    ensures Adjusted(coeffs, None, amp) == Failure(NoneIndex) && Adjusted(coeffs, None, offset) == Failure(NoneIndex)
  {
  }

  /** Channel 2 is reached by every setter, channel 1 never by the phase. */
  lemma ChannelTwoMnemonics(freq: real, phase: real, amp: real, offset: real)
    ensures FrequencyCommands(Some(2), freq) == [Command("WFF", FrequencyArgs(freq))]
    ensures FrequencyCommands(Some(1), freq) == [Command("WMF", FrequencyArgs(freq))]
    ensures PhaseCommand(phase).head == "WFP"
    ensures forall c <- WaveCommands(Some(2)) + AmplitudeCommands(Some(2), amp) + OffsetCommands(Some(2), offset) :: c.head[..2] == "WF"
  {
    assert WaveCommands(Some(2)) + AmplitudeCommands(Some(2), amp) + OffsetCommands(Some(2), offset)
      == [Command("WFW00", []), Command("WFA", [Fixed(amp, 3)]), Command("WFO", [Float(offset)])];
  }

  /** The phase sent is within [0, 360) for any phase from -360 up to 360. */
  lemma PhaseSentInTurn(phase: real)
    requires -360.0 <= phase < 360.0
    ensures var p := PhaseCommand(phase).args[0].x; 0.0 <= p < 360.0 && (p == phase || p == phase + 360.0)
  {
  }

  /**
   * After set_load_impedance(channel, z) on a positive z, set_amplitue
   * sends the requested value scaled by (z + 50)/z.
   */
  lemma AmplitudeOnLoad(coeffs: seq<real>, ch: Channel, z: real, amp: real)
    requires |coeffs| == 2 && (ch == Some(1) || ch == Some(2)) && z > 0.0
    requires coeffs[Slot(ch).value] == DividerCoefficient(Ohms(z)).value
    ensures Adjusted(coeffs, ch, amp).Success?
    ensures AmplitudeCommands(ch, Adjusted(coeffs, ch, amp).value)[0].args == [Fixed(amp * (z + RIn) / z, 3)]
  {
    AdjustedOnLoad(coeffs, ch, Ohms(z), amp);
    assert Adjusted(coeffs, ch, amp).value == amp * (z + RIn) / z;
  }

  /** The same scaling applies to the offset. */
  lemma OffsetOnLoad(coeffs: seq<real>, ch: Channel, z: real, offset: real)
    requires |coeffs| == 2 && (ch == Some(1) || ch == Some(2)) && z > 0.0
    requires coeffs[Slot(ch).value] == DividerCoefficient(Ohms(z)).value
    ensures Adjusted(coeffs, ch, offset).Success?
    ensures OffsetCommands(ch, Adjusted(coeffs, ch, offset).value)[0].args == [Float(offset * (z + RIn) / z)]
  {
    AdjustedOnLoad(coeffs, ch, Ohms(z), offset);
    assert Adjusted(coeffs, ch, offset).value == offset * (z + RIn) / z;
  }
}
