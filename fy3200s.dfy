/**
 * The FY3200S driver: send_command(channel, c) writes `b<c>` for channel 1
 * and `d<c>` for channel 2; the output flags, load impedances and divider
 * coefficients are two-slot lists that the setters update in place.
 */
module Fy3200s {
  import opened Wrappers
  import opened AwgCommon

  /** CHANNELS: 0 (both), 1 and 2; None is let through as well. */
  const Channels: set<int> := {0, 1, 2}

  /** send_command's fan-out: `b<c>` for channel 0, 1 or None, then `d<c>` for 0, 2 or None. */
  function Fanned(ch: Channel, c: Command): seq<Command>
  {
    Routed(ch, Command("b" + c.head, c.args), Command("d" + c.head, c.args))
  }

  /** `f<freq>`, the frequency as "%.2f" without its point (centihertz). */
  function FrequencyCommand(freq: real): Command
  {
    Command("f", [Digits(freq, 2)])
  }

  /** `f<phase>` after a negative phase gets +360: the phase goes out under the frequency letter. */
  function PhaseCommand(phase: real): Command
  {
    Command("f", [Float(WrapPhase(phase))])
  }

  /** `w0`: always a sine, whatever type was asked for. */
  const WaveCommand: Command := Command("w0", [])

  /** `a<amp>`, the amplitude as "%.3f". */
  function AmplitudeCommand(amp: real): Command
  {
    Command("a", [Fixed(amp, 3)])
  }

  /** `o<offset>`, the offset printed with "%s". */
  function OffsetCommand(offset: real): Command
  {
    Command("o", [Float(offset)])
  }

  class FY3200S {
    const portName: string
    var port: PortState
    var sent: seq<Command>
    var channelOn: seq<bool>
    var rLoad: seq<Impedance>
    var coeff: seq<real>

    predicate Valid()
      reads this
    {
      |channelOn| == 2 && |rLoad| == 2 && |coeff| == 2
    }

    /** Both outputs off, 50 ohm loads, coefficients 1, no port yet. */
    constructor(portName: string)
      ensures Valid() && this.portName == portName && port == Unopened && sent == []
      ensures channelOn == [false, false] && rLoad == [Ohms(50.0), Ohms(50.0)] && coeff == [1.0, 1.0]
    {
      this.portName := portName;
      port := Unopened;
      sent := [];
      channelOn := [false, false];
      rLoad := [Ohms(50.0), Ohms(50.0)];
      coeff := [1.0, 1.0];
    }

    method Connect()
      modifies this`port
      ensures port == Open
    {
      port := Open;
    }

    /** Closing fails when no port was ever opened. */
    method Disconnect() returns (err: Option<Fault>)
      modifies this`port
      ensures old(port) == Unopened ==> err == Some(NoPort) && port == Unopened
      ensures old(port) != Unopened ==> err == None && port == Closed
    {
      if port == Unopened {
        err := Some(NoPort);
      } else {
        err := None;
        port := Closed;
      }
    }

    method Write(c: Command) returns (err: Option<Fault>)
      modifies this`sent
      ensures err == WriteFault(port)
      ensures sent == old(sent) + Delivered(port, [c])
    {
      err := WriteFault(port);
      if err.None? {
        sent := sent + [c];
      }
    }

    /** send_command(channel, c). */
    method SendCommand(ch: Channel, c: Command) returns (err: Option<Fault>)
      modifies this`sent
      ensures err == Outcome(port, Fanned(ch, c))
      ensures sent == old(sent) + Delivered(port, Fanned(ch, c))
    {
      err := None;
      if ToFirst(ch) {
        err := Write(Command("b" + c.head, c.args));
      }
      if ToSecond(ch) && err.None? {
        err := Write(Command("d" + c.head, c.args));
      }
    }

    /**
     * The flags are updated, then send_command is called with one argument
     * instead of two, which fails before anything is written.
     */
    method EnableOutput(ch: Channel, on: bool) returns (err: Option<Fault>)
      requires Valid()
      modifies this`channelOn
      ensures Valid()
      ensures !ValidChannel(ch, Channels) ==> err == Some(UnknownChannel) && channelOn == old(channelOn)
      ensures ValidChannel(ch, Channels) ==> err == Some(WrongArgCount) && channelOn == EnabledAfter(old(channelOn), ch, on)
    {
      if !ValidChannel(ch, Channels) {
        return Some(UnknownChannel);
      }
      if ch.Some? && ch.value != 0 {
        channelOn := channelOn[ch.value - 1 := on];
      } else {
        channelOn := [on, on];
      }
      err := Some(WrongArgCount);
    }

    method SetFrequency(ch: Channel, freq: real) returns (err: Option<Fault>)
      modifies this`sent
      ensures !ValidChannel(ch, Channels) ==> err == Some(UnknownChannel) && sent == old(sent)
      ensures ValidChannel(ch, Channels) ==>
        && err == Outcome(port, Fanned(ch, FrequencyCommand(freq)))
        && sent == old(sent) + Delivered(port, Fanned(ch, FrequencyCommand(freq)))
    {
      if !ValidChannel(ch, Channels) {
        return Some(UnknownChannel);
      }
      err := SendCommand(ch, Command("f", [Digits(freq, 2)]));
    }

    /** No channel check: the phase is sent to channel 2. */
    method SetPhase(phase: real) returns (err: Option<Fault>)
      modifies this`sent
      ensures err == WriteFault(port)
      ensures sent == old(sent) + Delivered(port, Fanned(Some(2), PhaseCommand(phase)))
    {
      var p := phase;
      if p < 0.0 {
        p := p + 360.0;
      }
      err := SendCommand(Some(2), Command("f", [Float(p)]));
    }

    method SetWaveType(ch: Channel, w: WaveType) returns (err: Option<Fault>)
      modifies this`sent
      ensures !ValidChannel(ch, Channels) ==> err == Some(UnknownChannel) && sent == old(sent)
      ensures ValidChannel(ch, Channels) && !InWaveTypes(w) ==> err == Some(InvalidWaveType) && sent == old(sent)
      ensures ValidChannel(ch, Channels) && InWaveTypes(w) ==>
        && err == Outcome(port, Fanned(ch, WaveCommand))
        && sent == old(sent) + Delivered(port, Fanned(ch, WaveCommand))
    {
      if !ValidChannel(ch, Channels) {
        return Some(UnknownChannel);
      }
      if !InWaveTypes(w) {
        return Some(InvalidWaveType);
      }
      err := SendCommand(ch, WaveCommand);
    }

    /** set_amplitue: the amplitude is divided by the channel's coefficient first. */
    method SetAmplitue(ch: Channel, amp: real) returns (err: Option<Fault>)
      requires Valid()
      modifies this`sent
      ensures !ValidChannel(ch, Channels) ==> err == Some(UnknownChannel) && sent == old(sent)
      ensures ValidChannel(ch, Channels) && Adjusted(coeff, ch, amp).Failure? ==>
        err == Some(Adjusted(coeff, ch, amp).error) && sent == old(sent)
      ensures ValidChannel(ch, Channels) && Adjusted(coeff, ch, amp).Success? ==>
        var c := AmplitudeCommand(Adjusted(coeff, ch, amp).value);
        err == Outcome(port, Fanned(ch, c)) && sent == old(sent) + Delivered(port, Fanned(ch, c))
    {
      if !ValidChannel(ch, Channels) {
        return Some(UnknownChannel);
      }
      var adjusted := Adjusted(coeff, ch, amp);
      if adjusted.Failure? {
        return Some(adjusted.error);
      }
      err := SendCommand(ch, Command("a", [Fixed(adjusted.value, 3)]));
    }

    /** The offset is divided by the channel's coefficient first. */
    method SetOffset(ch: Channel, offset: real) returns (err: Option<Fault>)
      requires Valid()
      modifies this`sent
      ensures !ValidChannel(ch, Channels) ==> err == Some(UnknownChannel) && sent == old(sent)
      ensures ValidChannel(ch, Channels) && Adjusted(coeff, ch, offset).Failure? ==>
        err == Some(Adjusted(coeff, ch, offset).error) && sent == old(sent)
      ensures ValidChannel(ch, Channels) && Adjusted(coeff, ch, offset).Success? ==>
        var c := OffsetCommand(Adjusted(coeff, ch, offset).value);
        err == Outcome(port, Fanned(ch, c)) && sent == old(sent) + Delivered(port, Fanned(ch, c))
    {
      if !ValidChannel(ch, Channels) {
        return Some(UnknownChannel);
      }
      var adjusted := Adjusted(coeff, ch, offset);
      if adjusted.Failure? {
        return Some(adjusted.error);
      }
      err := SendCommand(ch, Command("o", [Float(adjusted.value)]));
    }

    /**
     * Stores z at index channel-1 (channel 0 is channel 2's slot), then its
     * divider coefficient; z = -50 fails after the load is stored.
     */
    method SetLoadImpedance(ch: Channel, z: Impedance) returns (err: Option<Fault>)
      requires Valid()
      modifies this`rLoad, this`coeff
      ensures Valid()
      ensures !ValidChannel(ch, Channels) ==> err == Some(UnknownChannel) && rLoad == old(rLoad) && coeff == old(coeff)
      ensures ValidChannel(ch, Channels) && ch.None? ==> err == Some(NoneIndex) && rLoad == old(rLoad) && coeff == old(coeff)
      ensures ValidChannel(ch, Channels) && ch.Some? ==>
        var k := Slot(ch).value;
        && rLoad == old(rLoad)[k := z]
        && (DividerCoefficient(z).Failure? ==> err == Some(ZeroDivision) && coeff == old(coeff))
        && (DividerCoefficient(z).Success? ==> err == None && coeff == old(coeff)[k := DividerCoefficient(z).value])
    {
      if !ValidChannel(ch, Channels) {
        return Some(UnknownChannel);
      }
      var slot := Slot(ch);
      if slot.Failure? {
        return Some(slot.error);
      }
      rLoad := rLoad[slot.value := z];
      var c := DividerCoefficient(z);
      if c.Failure? {
        return Some(c.error);
      }
      coeff := coeff[slot.value := c.value];
      err := None;
    }

    /** Clears both flags and opens the port; the final enable_output() then fails. */
    method Initialize() returns (err: Option<Fault>)
      requires Valid()
      modifies this`channelOn, this`port
      ensures Valid() && port == Open && channelOn == [false, false] && err == Some(WrongArgCount)
    {
      channelOn := [false, false];
      Connect();
      err := EnableOutput(None, false);
    }
  }

  /**
   * send_command reaches channel 1 with `b`, channel 2 with `d`, both for
   * 0 or None (channel 1 first), and neither for any other channel.
   */
  lemma FanOut(ch: Channel, c: Command)
    ensures ch == Some(1) ==> Fanned(ch, c) == [Command("b" + c.head, c.args)]
    ensures ch == Some(2) ==> Fanned(ch, c) == [Command("d" + c.head, c.args)]
    ensures ch == None || ch == Some(0) ==> Fanned(ch, c) == [Command("b" + c.head, c.args), Command("d" + c.head, c.args)]
    ensures ValidChannel(ch, Channels) <==> Fanned(ch, c) != []
    ensures forall x <- Fanned(ch, c) :: x.args == c.args && x.head[1..] == c.head
  {
  }

  /**
   * The phase leaves on channel 2 under the same mnemonic `df` as channel
   * 2's frequency, carrying the wrapped phase in [0, 360) for phases from -360 up to 360.
   */
  lemma PhaseUsesFrequencyMnemonic(phase: real, freq: real)
    requires -360.0 <= phase < 360.0
    ensures |Fanned(Some(2), PhaseCommand(phase))| == 1
    ensures Fanned(Some(2), PhaseCommand(phase))[0].head == Fanned(Some(2), FrequencyCommand(freq))[0].head == "df"
    ensures 0.0 <= Fanned(Some(2), PhaseCommand(phase))[0].args[0].x < 360.0
  {
    FanOut(Some(2), PhaseCommand(phase));
    FanOut(Some(2), FrequencyCommand(freq));
  }

  /**
   * After set_load_impedance(channel, z) on a positive z, set_amplitue
   * sends the requested value scaled by (z + 50)/z.
   */
  lemma AmplitudeOnLoad(coeffs: seq<real>, ch: Channel, z: real, amp: real)
    requires |coeffs| == 2 && (ch == Some(1) || ch == Some(2)) && z > 0.0
    requires coeffs[Slot(ch).value] == DividerCoefficient(Ohms(z)).value
    ensures Adjusted(coeffs, ch, amp).Success?
    ensures AmplitudeCommand(Adjusted(coeffs, ch, amp).value) == Command("a", [Fixed(amp * (z + RIn) / z, 3)])
  {
    AdjustedOnLoad(coeffs, ch, Ohms(z), amp);
    assert Adjusted(coeffs, ch, amp).value == amp * (z + RIn) / z;
  }

  /** The same scaling applies to the offset. */
  lemma OffsetOnLoad(coeffs: seq<real>, ch: Channel, z: real, offset: real)
    requires |coeffs| == 2 && (ch == Some(1) || ch == Some(2)) && z > 0.0
    requires coeffs[Slot(ch).value] == DividerCoefficient(Ohms(z)).value
    ensures Adjusted(coeffs, ch, offset).Success?
    ensures OffsetCommand(Adjusted(coeffs, ch, offset).value) == Command("o", [Float(offset * (z + RIn) / z)])
  {
    AdjustedOnLoad(coeffs, ch, Ohms(z), offset);
    assert Adjusted(coeffs, ch, offset).value == offset * (z + RIn) / z;
  }
}
