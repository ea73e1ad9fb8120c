/**
 * The BK Precision 4075 driver: one channel, SCPI-style commands, and the
 * fields r_load, v_out_coeff and output_on that exist only once a method
 * has set them (None here until then).
 */
module Bk4075 {
  import opened Wrappers
  import opened AwgCommon

  /** BAUD_RATES. */
  const BaudRates: set<int> := {2400, 4800, 9600, 19200}

  /** CHANNELS: 0 and 1; None is let through as well. */
  const Channels: set<int> := {0, 1}

  /** DEFAULT_LOAD. */
  const DefaultLoad: Impedance := Ohms(50.0)

  const ScreenOn: Command := Command("SYST:SCR ON", [])

  /** `:OUTP:STAT ON` or `:OUTP:STAT OFF`. */
  function OutputCommand(on: bool): Command
  {
    Command(if on then ":OUTP:STAT ON" else ":OUTP:STAT OFF", [])
  }

  /** `:FREQ <freq>`, the frequency as "%.10f". */
  function FrequencyCommand(freq: real): Command
  {
    Command(":FREQ", [Fixed(freq, 10)])
  }

  /** WAVEFORM_COMMANDS, defined on the four WAVE_TYPES. */
  function WaveformCommand(w: WaveType): Command
    requires InWaveTypes(w)
  {
    match w
    case Sine => Command(":SOUR:FUNC SIN", [])
    case Square => Command(":SOUR:FUNC SQU", [])
    case Pulse => Command(":SOUR:FUNC PUL", [])
    case Triangle => Command(":SOUR:FUNC TRI", [])
  }

  /** `:VOLT:AMPL <amp>`, the amplitude times the coefficient, as "%.3f". */
  function AmplitudeCommand(amp: real, coeff: real): Command
  {
    Command(":VOLT:AMPL", [Fixed(amp * coeff, 3)])
  }

  /** `:VOLT:OFFS <offset>`, the offset times the coefficient, printed with "%s". */
  function OffsetCommand(offset: real, coeff: real): Command
  {
    Command(":VOLT:OFFS", [Float(offset * coeff)])
  }

  /**
   * The multiplier applied to requested voltages: the generator expects a
   * 50 ohm load, so 0.5 for Hi-Z and 0.5 (z + R_IN)/z otherwise; z = 0
   * divides by zero.
   */
  function Coefficient(z: Impedance): (r: Result<real, Fault>)
    ensures r.Failure? <==> z == Ohms(0.0)
    ensures r.Failure? ==> r.error == ZeroDivision
  {
    match z
    case HiZ => Success(0.5)
    case Ohms(x) => if x == 0.0 then Failure(ZeroDivision) else Success(0.5 * (x + RIn) / x)
  }

  class BK4075 {
    const portName: string
    const baudRate: int
    var port: PortState
    var sent: seq<Command>
    var rLoad: Option<Impedance>
    var coeff: Option<real>
    var outputOn: Option<bool>

    /** The constructor proper, reached once the baud rate is accepted. */
    constructor(portName: string, baudRate: int)
      requires baudRate in BaudRates
      ensures this.portName == portName && this.baudRate == baudRate && port == Unopened && sent == []
      ensures rLoad == None && coeff == None && outputOn == None
    {
      this.portName := portName;
      this.baudRate := baudRate;
      port := Unopened;
      sent := [];
      rLoad := None;
      coeff := None;
      outputOn := None;
    }

    method Connect()
      modifies this`port
      ensures port == Open
    {
      port := Open;
    }

    /** Closing fails when no port was ever opened. */
    method Disconnect() returns (err: Option<Fault>)
      modifies this`port
      ensures old(port) == Unopened ==> err == Some(NoPort) && port == Unopened
      ensures old(port) != Unopened ==> err == None && port == Closed
    {
      if port == Unopened {
        err := Some(NoPort);
      } else {
        err := None;
        port := Closed;
      }
    }

    method SendCommand(c: Command) returns (err: Option<Fault>)
      modifies this`sent
      ensures err == WriteFault(port)
      ensures sent == old(sent) + Delivered(port, [c])
    {
      err := WriteFault(port);
      if err.None? {
        sent := sent + [c];
      }
    }

    method EnableOutput(ch: Channel, on: bool) returns (err: Option<Fault>)
      modifies this`outputOn, this`sent
      ensures !ValidChannel(ch, Channels) ==> err == Some(UnknownChannel) && outputOn == old(outputOn) && sent == old(sent)
      ensures ValidChannel(ch, Channels) ==>
        && outputOn == Some(on)
        && err == WriteFault(port)
        && sent == old(sent) + Delivered(port, [OutputCommand(on)])
    {
      if !ValidChannel(ch, Channels) {
        return Some(UnknownChannel);
      }
      outputOn := Some(on);
      if on {
        err := SendCommand(Command(":OUTP:STAT ON", []));
      } else {
        err := SendCommand(Command(":OUTP:STAT OFF", []));
      }
    }

    method SetFrequency(ch: Channel, freq: real) returns (err: Option<Fault>)
      modifies this`sent
      ensures !ValidChannel(ch, Channels) ==> err == Some(UnknownChannel) && sent == old(sent)
      ensures ValidChannel(ch, Channels) ==>
        err == WriteFault(port) && sent == old(sent) + Delivered(port, [FrequencyCommand(freq)])
    {
      if !ValidChannel(ch, Channels) {
        return Some(UnknownChannel);
      }
      err := SendCommand(Command(":FREQ", [Fixed(freq, 10)]));
    }

    /** The generator needs no phase: nothing is checked, stored or sent. */
    method SetPhase(phase: real) returns (err: Option<Fault>)
      ensures err == None
    {
      err := None;
    }

    method SetWaveType(ch: Channel, w: WaveType) returns (err: Option<Fault>)
      modifies this`sent
      ensures !ValidChannel(ch, Channels) ==> err == Some(UnknownChannel) && sent == old(sent)
      ensures ValidChannel(ch, Channels) && !InWaveTypes(w) ==> err == Some(InvalidWaveType) && sent == old(sent)
      ensures ValidChannel(ch, Channels) && InWaveTypes(w) ==>
        err == WriteFault(port) && sent == old(sent) + Delivered(port, [WaveformCommand(w)])
    {
      if !ValidChannel(ch, Channels) {
        return Some(UnknownChannel);
      }
      if !InWaveTypes(w) {
        return Some(InvalidWaveType);
      }
      err := SendCommand(WaveformCommand(w));
    }

    /** set_amplitue: the amplitude is multiplied by the coefficient, which must have been set. */
    method SetAmplitue(ch: Channel, amp: real) returns (err: Option<Fault>)
      modifies this`sent
      ensures !ValidChannel(ch, Channels) ==> err == Some(UnknownChannel) && sent == old(sent)
      ensures ValidChannel(ch, Channels) && coeff.None? ==> err == Some(MissingAttribute) && sent == old(sent)
      ensures ValidChannel(ch, Channels) && coeff.Some? ==>
        err == WriteFault(port) && sent == old(sent) + Delivered(port, [AmplitudeCommand(amp, coeff.value)])
    {
      if !ValidChannel(ch, Channels) {
        return Some(UnknownChannel);
      }
      if coeff.None? {
        return Some(MissingAttribute);
      }
      err := SendCommand(AmplitudeCommand(amp, coeff.value));
    }

    /** The offset is multiplied by the coefficient, which must have been set. */
    method SetOffset(ch: Channel, offset: real) returns (err: Option<Fault>)
      modifies this`sent
      ensures !ValidChannel(ch, Channels) ==> err == Some(UnknownChannel) && sent == old(sent)
      ensures ValidChannel(ch, Channels) && coeff.None? ==> err == Some(MissingAttribute) && sent == old(sent)
      ensures ValidChannel(ch, Channels) && coeff.Some? ==>
        err == WriteFault(port) && sent == old(sent) + Delivered(port, [OffsetCommand(offset, coeff.value)])
    {
      if !ValidChannel(ch, Channels) {
        return Some(UnknownChannel);
      }
      if coeff.None? {
        return Some(MissingAttribute);
      }
      err := SendCommand(OffsetCommand(offset, coeff.value));
    }

    /** Stores z, then its coefficient; z = 0 fails after the load is stored. */
    method SetLoadImpedance(ch: Channel, z: Impedance) returns (err: Option<Fault>)
      modifies this`rLoad, this`coeff
      ensures !ValidChannel(ch, Channels) ==> err == Some(UnknownChannel) && rLoad == old(rLoad) && coeff == old(coeff)
      ensures ValidChannel(ch, Channels) ==>
        && rLoad == Some(z)
        && (Coefficient(z).Failure? ==> err == Some(ZeroDivision) && coeff == old(coeff))
        && (Coefficient(z).Success? ==> err == None && coeff == Some(Coefficient(z).value))
    {
      if !ValidChannel(ch, Channels) {
        return Some(UnknownChannel);
      }
      rLoad := Some(z);
      if z.HiZ? {
        coeff := Some(0.5);
      } else if z.r == 0.0 {
        return Some(ZeroDivision);
      } else {
        coeff := Some(0.5 * (z.r + RIn) / z.r);
      }
      err := None;
    }

    /**
     * Opens the port, turns the screen on, sets the 50 ohm defaults and
     * switches the output off.
     */
    method Initialize() returns (err: Option<Fault>)
      modifies this`port, this`sent, this`rLoad, this`coeff, this`outputOn
      ensures port == Open && err == None
      ensures rLoad == Some(DefaultLoad) && coeff == Some(1.0) && outputOn == Some(false)
      ensures sent == old(sent) + [ScreenOn, OutputCommand(false)]
    {
      Connect();
      err := SendCommand(ScreenOn);
      rLoad := Some(DefaultLoad);
      coeff := Some(1.0);
      outputOn := Some(false);
      err := EnableOutput(Some(1), false);
    }
  }

  /**
   * BK4075(port, baud_rate): the ValueError for a rate outside BAUD_RATES,
   * otherwise a driver with none of the initialize() fields set.
   */
  method Create(portName: string, baudRate: int) returns (r: Result<BK4075, Fault>)
    ensures baudRate !in BaudRates <==> r == Failure(InvalidBaudRate)
    ensures r.Success? ==> fresh(r.value) && r.value.baudRate == baudRate && r.value.port == Unopened
    ensures r.Success? ==> r.value.portName == portName && r.value.sent == []
    ensures r.Success? ==> r.value.rLoad == None && r.value.coeff == None && r.value.outputOn == None
  {
    if baudRate !in BaudRates {
      return Failure(InvalidBaudRate);
    }
    var awg := new BK4075(portName, baudRate);
    return Success(awg);
  }

  /**
   * The voltage that reaches the load: the generator doubles its setting
   * and loses the part dropped over R_IN, so the load sees
   * 2 * setting * z/(z + R_IN), and Hi-Z sees twice the setting.
   */
  function OnLoad(setting: real, z: Impedance): real
    requires z.Ohms? ==> z.r + RIn != 0.0
  {
    match z
    case HiZ => 2.0 * setting
    case Ohms(x) => 2.0 * setting * x / (x + RIn)
  }

  /**
   * Multiplying by the coefficient makes the load see exactly the voltage
   * asked for, Hi-Z and any positive load alike; the coefficient at the
   * default 50 ohms is the 1.0 that initialize sets.
   */
  lemma LoadSeesRequested(z: Impedance, v: real)
    requires z.Ohms? ==> z.r > 0.0
    ensures Coefficient(z).Success?
    ensures OnLoad(v * Coefficient(z).value, z) == v
    ensures Coefficient(DefaultLoad) == Success(1.0)
  {
    if z.Ohms? {
      var x := z.r;
      var c := Coefficient(z).value;
      assert c == 0.5 * (x + RIn) / x;
      calc {
        OnLoad(v * c, z);
        2.0 * (v * c) * x / (x + RIn);
        2.0 * (v * (0.5 * (x + RIn) / x)) * x / (x + RIn);
        v * ((x + RIn) / x) * x / (x + RIn);
        { assert (x + RIn) / x * x == x + RIn; }
        v * (x + RIn) / (x + RIn);
        v;
      }
    }
  }

  /** Each WAVE_TYPE maps to its own function command; other types have none. */
  lemma WaveformCommandsDistinct(a: WaveType, b: WaveType)
    requires InWaveTypes(a) && InWaveTypes(b)
    ensures WaveformCommand(a) == WaveformCommand(b) <==> a == b
    ensures WaveformCommand(a).head[..10] == ":SOUR:FUNC"
  {
  }
}
