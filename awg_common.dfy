/**
 * Vocabulary shared by the AWG drivers: channels (None meaning "both"),
 * load impedances, wave types, the faults the drivers raise, the commands
 * they write to the serial line, and the arithmetic they share (the
 * voltage-divider coefficient, truncation, rounding, phase wrap).
 * Voltages and impedances are exact reals.
 */
module AwgCommon {
  import opened Wrappers

  /** A channel argument: None or an integer. */
  type Channel = Option<int>

  /** A load impedance: the Hi-Z marker or a resistance in ohms. */
  datatype Impedance = HiZ | Ohms(r: real)

  /** Wave types; the first four are WAVE_TYPES, anything else is refused by validating drivers. */
  datatype WaveType = Sine | Square | Pulse | Triangle | Unlisted(code: int)

  predicate InWaveTypes(w: WaveType)
  {
    !w.Unlisted?
  }

  /** The exceptions a driver call can end in. */
  datatype Fault =
    | UnknownChannel     // UnknownChannelError
    | InvalidWaveType    // ValueError("Incorrect wave type.")
    | InvalidBaudRate    // ValueError from the BK4075 constructor
    | ZeroDivision       // ZeroDivisionError
    | NoneIndex          // TypeError: None - 1
    | NoPort             // AttributeError: the serial port was never opened
    | PortClosed         // writing to a closed serial port
    | MissingAttribute   // AttributeError: a field initialize() sets was read first
    | MissingSys         // NameError: sys is used without being imported
    | WrongArgCount      // TypeError: a method called with too few arguments
    | KeyError           // KeyError from a dictionary lookup

  /**
   * One argument of a command as the driver formats it. Integer renderings
   * are concrete; renderings of reals are kept as the value and the format.
   */
  datatype Value =
    | Flag(on: bool)                  // "1" or "0"
    | Str(s: string)                  // literal text
    | Int(n: int)                     // "%s" of an integer
    | Fixed(x: real, places: nat)     // "%.<places>f"
    | Digits(x: real, places: nat)    // "%.<places>f" with the decimal point removed
    | Float(x: real)                  // "%s" of a float
    | Wave(w: WaveType)               // "%s" of a wave-type constant

  /** One line written to the generator: a mnemonic followed by its arguments. */
  datatype Command = Command(head: string, args: seq<Value>)

  /** The driver's serial port: never opened, open, or closed. */
  datatype PortState = Unopened | Open | Closed

  /** What writing one command to a port in the given state raises. */
  function WriteFault(port: PortState): (f: Option<Fault>)
    ensures f.None? <==> port == Open
  {
    match port
    case Unopened => Some(NoPort)
    case Open => None
    case Closed => Some(PortClosed)
  }

  /** The commands that reach the line: all of them on an open port, none otherwise. */
  function Delivered(port: PortState, cmds: seq<Command>): seq<Command>
  {
    if port == Open then cmds else []
  }

  /** What writing the commands raises: the first write fails unless the port is open. */
  function Outcome(port: PortState, cmds: seq<Command>): Option<Fault>
  {
    if cmds == [] then None else WriteFault(port)
  }

  /** Output impedance of the generators (R_IN, AWG_OUTPUT_IMPEDANCE). */
  const RIn: real := 50.0

  /** channel is None or one of the allowed numbers. */
  predicate ValidChannel(ch: Channel, allowed: set<int>)
  {
    ch.None? || ch.value in allowed
  }

  /** The channel-1 branch: channel in (0, 1) or channel is None. */
  predicate ToFirst(ch: Channel)
  {
    ch == None || ch == Some(0) || ch == Some(1)
  }

  /** The channel-2 branch: channel in (0, 2) or channel is None. */
  predicate ToSecond(ch: Channel)
  {
    ch == None || ch == Some(0) || ch == Some(2)
  }

  /** Channel 1's command and/or channel 2's, channel 1 first. */
  function Routed<T>(ch: Channel, first: T, second: T): (r: seq<T>)
    ensures |r| <= 2
    ensures first in r <== ToFirst(ch)
    ensures ch == Some(1) ==> r == [first]
    ensures ch == Some(2) ==> r == [second]
    ensures ToFirst(ch) && ToSecond(ch) ==> r == [first, second]
    ensures !ToFirst(ch) && !ToSecond(ch) ==> r == []
  {
    (if ToFirst(ch) then [first] else []) + (if ToSecond(ch) then [second] else [])
  }

  /** The index channel-1 into a two-slot list; channel 0 gives -1, the last slot; None raises. */
  function Slot(ch: Channel): (r: Result<nat, Fault>)
    requires ValidChannel(ch, {0, 1, 2})
    ensures ch == Some(1) ==> r == Success(0)
    ensures ch == Some(2) || ch == Some(0) ==> r == Success(1)
    ensures ch.None? <==> r == Failure(NoneIndex)
  {
    match ch
    case None => Failure(NoneIndex)
    case Some(c) => if c == 0 then Success(1) else Success(c - 1)
  }

  /** Both output flags after enable_output(channel, on): one slot for 1 or 2, both for 0 or None. */
  function EnabledAfter(flags: seq<bool>, ch: Channel, on: bool): (r: seq<bool>)
    requires |flags| == 2 && ValidChannel(ch, {0, 1, 2})
    ensures |r| == 2
    ensures ch == Some(1) ==> r == [on, flags[1]]
    ensures ch == Some(2) ==> r == [flags[0], on]
    ensures ch == None || ch == Some(0) ==> r == [on, on]
  {
    if ch.Some? && ch.value != 0 then flags[ch.value - 1 := on] else [on, on]
  }

  /**
   * The voltage-divider coefficient z/(z + R_IN): 1 for Hi-Z; z = -R_IN
   * divides by zero.
   */
  function DividerCoefficient(z: Impedance): (r: Result<real, Fault>)
    ensures z.HiZ? ==> r == Success(1.0)
    ensures r.Failure? <==> z.Ohms? && z.r + RIn == 0.0
    ensures r.Failure? ==> r.error == ZeroDivision
    ensures z.Ohms? && r.Success? ==> r.value * (z.r + RIn) == z.r
  {
    match z
    case HiZ => Success(1.0)
    case Ohms(x) => if x + RIn == 0.0 then Failure(ZeroDivision) else Success(x / (x + RIn))
  }

  /**
   * Dividing a requested voltage by the coefficient scales it by
   * (z + R_IN)/z, so a 50 ohm load doubles it and Hi-Z leaves it alone.
   */
  lemma DividerNetScale(z: Impedance, v: real)
    requires z.Ohms? ==> z.r > 0.0
    ensures DividerCoefficient(z).Success? && DividerCoefficient(z).value != 0.0
    ensures z.HiZ? ==> v / DividerCoefficient(z).value == v
    ensures z.Ohms? ==> v / DividerCoefficient(z).value == v * (z.r + RIn) / z.r
    ensures z == Ohms(50.0) ==> v / DividerCoefficient(z).value == 2.0 * v
  {
    if z.Ohms? {
      var c := DividerCoefficient(z).value;
      assert c == z.r / (z.r + RIn);
      calc {
        v / c;
        v / (z.r / (z.r + RIn));
        v * (z.r + RIn) / z.r;
      }
    }
  }

  /**
   * value / v_out_coeff[channel-1]: None cannot index the list, a zero
   * coefficient divides by zero.
   */
  function Adjusted(coeffs: seq<real>, ch: Channel, v: real): (r: Result<real, Fault>)
    requires |coeffs| == 2 && ValidChannel(ch, {0, 1, 2})
    ensures ch.None? ==> r == Failure(NoneIndex)
    ensures ch.Some? ==> (r.Failure? <==> coeffs[Slot(ch).value] == 0.0)
    ensures ch.Some? && r.Failure? ==> r.error == ZeroDivision
    ensures r.Success? ==> r.value * coeffs[Slot(ch).value] == v
  {
    match Slot(ch)
    case Failure(f) => Failure(f)
    case Success(k) => if coeffs[k] == 0.0 then Failure(ZeroDivision) else Success(v / coeffs[k])
  }

  /**
   * Once set_load_impedance(channel, z) has stored z's coefficient, a voltage
   * asked of that channel is sent scaled by (z + R_IN)/z, and unchanged for Hi-Z.
   */
  lemma AdjustedOnLoad(coeffs: seq<real>, ch: Channel, z: Impedance, v: real)
    requires |coeffs| == 2 && ch.Some? && ValidChannel(ch, {0, 1, 2})
    requires z.Ohms? ==> z.r > 0.0
    requires DividerCoefficient(z).Success? && coeffs[Slot(ch).value] == DividerCoefficient(z).value
    ensures Adjusted(coeffs, ch, v).Success?
    ensures z.HiZ? ==> Adjusted(coeffs, ch, v).value == v
    ensures z.Ohms? ==> Adjusted(coeffs, ch, v).value == v * (z.r + RIn) / z.r
  {
    DividerNetScale(z, v);
  }

  /** Switching channel 1 and then channel 2 sets each flag independently. */
  lemma EnableEachChannel(flags: seq<bool>, a: bool, b: bool)
    requires |flags| == 2
    ensures EnabledAfter(EnabledAfter(flags, Some(1), a), Some(2), b) == [a, b]
    ensures EnabledAfter(EnabledAfter(flags, Some(2), b), Some(1), a) == [a, b]
    ensures EnabledAfter(EnabledAfter(flags, Some(1), a), Some(0), b) == [b, b]
  {
  }

  /** int(x) of a float: truncation toward zero. */
  function Trunc(x: real): (n: int)
    ensures x >= 0.0 ==> 0 <= n && n as real <= x < n as real + 1.0
    ensures x < 0.0 ==> n <= 0 && n as real - 1.0 < x <= n as real
  {
    if x >= 0.0 then x.Floor else -((-x).Floor)
  }

  /** round(x) as an integer, halves away from zero. */
  function RoundHalfAway(x: real): (n: int)
    ensures x >= 0.0 ==> n >= 0 && n as real - 0.5 <= x < n as real + 0.5
    ensures x < 0.0 ==> n <= 0 && n as real - 0.5 < x <= n as real + 0.5
  {
    if x >= 0.0 then (x + 0.5).Floor else -((-x + 0.5).Floor)
  }

  /** round(x, n) for scale = 10^n, halves away from zero. */
  function RoundTo(x: real, scale: real): real
    requires scale > 0.0
  {
    RoundHalfAway(x * scale) as real / scale
  }

  /** A negative phase gets +360 degrees. */
  function WrapPhase(p: real): (r: real)
    ensures p < 0.0 ==> r == p + 360.0
    ensures p >= 0.0 ==> r == p
    ensures p >= -360.0 ==> r >= 0.0
  {
    if p < 0.0 then p + 360.0 else p
  }
}
