/**
 * command_parser.py: one SCPI line from the oscilloscope becomes an ordered
 * sequence of driver calls. The driver is represented by the trace of calls
 * it receives; a Python exception raised by the parser itself ends the trace
 * with an error. Numeric arguments handed to float() are kept as their text.
 */
module ScpiParser {
  import opened Wrappers
  import opened PyText
  import opened AwgCommon

  /** One call on the driver (the BaseAWG methods the parser uses). */
  datatype Call =
    | SetWaveType(channel: int, wave: WaveType)
    | SetFrequency(channel: int, freq: string)
    | SetAmplitude(channel: int, amplitude: string)
    | SetOffset(channel: int, offset: string)
    | SetPhase(phase: string)
    | EnableOutput(channel: int, on: bool)
    | SetLoadImpedance(channel: int, z: Impedance)

  /** The exceptions the parser itself raises. */
  datatype ParseError = IndexError | ValueError

  /** The calls made, in order, and the exception that stopped the parse, if any. */
  datatype Trace = Trace(calls: seq<Call>, error: Option<ParseError>)

  function Prefixed(cs: seq<Call>, t: Trace): Trace
  {
    Trace(cs + t.calls, t.error)
  }

  /** Emitting one more call is prefixing it to the rest of the trace. */
  lemma PrefixedAppend(cs: seq<Call>, c: Call, t: Trace)
    ensures Prefixed(cs + [c], t) == Prefixed(cs, Prefixed([c], t))
  {
    assert cs + [c] + t.calls == cs + ([c] + t.calls);
  }

  /** Run a, then b unless a raised. */
  function Then(a: Trace, b: Trace): Trace
  {
    if a.error.Some? then a else Prefixed(a.calls, b)
  }

  predicate IsBswvSetter(key: string)
  {
    key == "FRQ" || key == "AMP" || key == "OFST" || key == "PHSE"
  }

  /** The setter call a BSWV key makes with its argument text; PHSE carries no channel. */
  function BswvSetter(key: string, channel: int, arg: string): Call
    requires IsBswvSetter(key)
  {
    if key == "FRQ" then SetFrequency(channel, arg)
    else if key == "AMP" then SetAmplitude(channel, arg)
    else if key == "OFST" then SetOffset(channel, arg)
    else SetPhase(arg)
  }

  /**
   * parse_bswv from index n: WVTP sets a sine whatever follows and skips
   * two tokens; the four setters read the next token (IndexError when there
   * is none) and skip two; anything else skips one.
   */
  function BswvFrom(args: seq<string>, channel: int, n: nat): Trace
    decreases |args| - n
  {
    if n >= |args| then Trace([], None)
    else if args[n] == "WVTP" then Prefixed([SetWaveType(channel, Sine)], BswvFrom(args, channel, n + 2))
    else if IsBswvSetter(args[n]) then
      if n + 1 >= |args| then Trace([], Some(IndexError))
      else Prefixed([BswvSetter(args[n], channel, args[n + 1])], BswvFrom(args, channel, n + 2))
    else BswvFrom(args, channel, n + 1)
  }

  /** The impedance a LOAD argument names: HZ is Hi-Z, otherwise int() of the text. */
  function LoadValue(arg: string): (z: Option<Impedance>)
    ensures arg == "HZ" ==> z == Some(HiZ)
    ensures arg != "HZ" ==> (z.Some? <==> ParseInt(arg).Some?)
    ensures arg != "HZ" && z.Some? ==> z.value == Ohms(ParseInt(arg).value as real)
  {
    if arg == "HZ" then Some(HiZ)
    else
      match ParseInt(arg)
      case None => None
      case Some(v) => Some(Ohms(v as real))
  }

  /**
   * parse_outp from index n: ON and OFF switch the output and skip one
   * token; LOAD reads the next token (IndexError when there is none,
   * ValueError when it is neither HZ nor an integer) and skips two; anything
   * else skips one.
   */
  function OutpFrom(args: seq<string>, channel: int, n: nat): Trace
    decreases |args| - n
  {
    if n >= |args| then Trace([], None)
    else if args[n] == "ON" then Prefixed([EnableOutput(channel, true)], OutpFrom(args, channel, n + 1))
    else if args[n] == "LOAD" then
      if n + 1 >= |args| then Trace([], Some(IndexError))
      else if LoadValue(args[n + 1]).None? then Trace([], Some(ValueError))
      else Prefixed([SetLoadImpedance(channel, LoadValue(args[n + 1]).value)], OutpFrom(args, channel, n + 2))
    else if args[n] == "OFF" then Prefixed([EnableOutput(channel, false)], OutpFrom(args, channel, n + 1))
    else OutpFrom(args, channel, n + 1)
  }

  /** The family of a sub-command: its first four characters. */
  function Family(command: string): string
  {
    Slice(command, 0, 4)
  }

  /** The arguments of a sub-command: from character 5 on, split on commas. */
  function Arguments(command: string): seq<string>
  {
    Split(From(command, 5), ',')
  }

  /** One sub-command: BSWV and OUTP are dispatched, every other family does nothing. */
  function SubCommandTrace(command: string, channel: int): (t: Trace)
    ensures Family(command) != "BSWV" && Family(command) != "OUTP" ==> t == Trace([], None)
  {
    var family := Family(command);
    if family == "BSWV" then BswvFrom(Arguments(command), channel, 0)
    else if family == "OUTP" then OutpFrom(Arguments(command), channel, 0)
    else Trace([], None)
  }

  /** The sub-commands in textual order, stopping at the first exception. */
  function CommandsTrace(commands: seq<string>, channel: int): Trace
  {
    if |commands| == 0 then Trace([], None)
    else Then(SubCommandTrace(commands[0], channel), CommandsTrace(commands[1..], channel))
  }

  /**
   * parse_scpi_command: a query (a line ending in '?') does nothing; the
   * channel is int() of the character at index 1 (IndexError on a shorter
   * line, ValueError on a non-digit); the sub-commands are line[3:] split
   * on ';'.
   */
  function LineTrace(line: string): (t: Trace)
    ensures |line| > 0 && line[|line| - 1] == '?' ==> t == Trace([], None)
    ensures |line| < 2 && line != "?" ==> t == Trace([], Some(IndexError))
    ensures |line| >= 2 && line[|line| - 1] != '?' && !IsDigit(line[1]) ==> t == Trace([], Some(ValueError))
    ensures |line| >= 2 && line[|line| - 1] != '?' && IsDigit(line[1]) ==>
      t == CommandsTrace(Split(From(line, 3), ';'), DigitValue(line[1]))
  {
    if |line| > 0 && line[|line| - 1] == '?' then Trace([], None)
    else if |line| < 2 then Trace([], Some(IndexError))
    else
      assert ParseInt([line[1]]) == if IsDigit(line[1]) then Some(DigitValue(line[1])) else None by {
        ParseDigit(line[1]);
      }
      match ParseInt([line[1]])
      case None => Trace([], Some(ValueError))
      case Some(channel) => CommandsTrace(Split(From(line, 3), ';'), channel)
  }

  // ---------------------------------------------------------------------
  // The parser as the source runs it: index loops that emit calls.
  // ---------------------------------------------------------------------

  method ParseBswv(args: seq<string>, channel: int) returns (calls: seq<Call>, err: Option<ParseError>)
    ensures Trace(calls, err) == BswvFrom(args, channel, 0)
  {
    calls := [];
    var n := 0;
    while n < |args|
      invariant Prefixed(calls, BswvFrom(args, channel, n)) == BswvFrom(args, channel, 0)
      decreases |args| - n
    {
      if args[n] == "WVTP" {
        PrefixedAppend(calls, SetWaveType(channel, Sine), BswvFrom(args, channel, n + 2));
        calls := calls + [SetWaveType(channel, Sine)];
        n := n + 2;
      } else if IsBswvSetter(args[n]) {
        if n + 1 >= |args| {
          return calls, Some(IndexError);
        }
        PrefixedAppend(calls, BswvSetter(args[n], channel, args[n + 1]), BswvFrom(args, channel, n + 2));
        calls := calls + [BswvSetter(args[n], channel, args[n + 1])];
        n := n + 2;
      } else {
        n := n + 1;
      }
    }
    err := None;
  }

  method ParseOutp(args: seq<string>, channel: int) returns (calls: seq<Call>, err: Option<ParseError>)
    ensures Trace(calls, err) == OutpFrom(args, channel, 0)
  {
    calls := [];
    var n := 0;
    while n < |args|
      invariant Prefixed(calls, OutpFrom(args, channel, n)) == OutpFrom(args, channel, 0)
      decreases |args| - n
    {
      if args[n] == "ON" {
        assert OutpFrom(args, channel, n) == Prefixed([EnableOutput(channel, true)], OutpFrom(args, channel, n + 1));
        PrefixedAppend(calls, EnableOutput(channel, true), OutpFrom(args, channel, n + 1));
        calls := calls + [EnableOutput(channel, true)];
        n := n + 1;
      } else if args[n] == "LOAD" {
        if n + 1 >= |args| {
          return calls, Some(IndexError);
        }
        var z := LoadValue(args[n + 1]);
        if z.None? {
          return calls, Some(ValueError);
        }
        assert OutpFrom(args, channel, n) == Prefixed([SetLoadImpedance(channel, z.value)], OutpFrom(args, channel, n + 2));
        PrefixedAppend(calls, SetLoadImpedance(channel, z.value), OutpFrom(args, channel, n + 2));
        calls := calls + [SetLoadImpedance(channel, z.value)];
        n := n + 2;
      } else if args[n] == "OFF" {
        assert OutpFrom(args, channel, n) == Prefixed([EnableOutput(channel, false)], OutpFrom(args, channel, n + 1));
        PrefixedAppend(calls, EnableOutput(channel, false), OutpFrom(args, channel, n + 1));
        calls := calls + [EnableOutput(channel, false)];
        n := n + 1;
      } else {
        assert OutpFrom(args, channel, n) == OutpFrom(args, channel, n + 1);
        n := n + 1;
      }
    }
    err := None;
  }

  method ParseScpiCommand(line: string) returns (calls: seq<Call>, err: Option<ParseError>)
    ensures Trace(calls, err) == LineTrace(line)
  {
    if |line| > 0 && line[|line| - 1] == '?' {
      return [], None;
    }
    if |line| < 2 {
      return [], Some(IndexError);
    }
    var digit := ParseInt([line[1]]);
    if digit.None? {
      return [], Some(ValueError);
    }
    var channel := digit.value;
    var commands := Split(From(line, 3), ';');
    calls := [];
    for i := 0 to |commands|
      invariant Prefixed(calls, CommandsTrace(commands[i..], channel)) == CommandsTrace(commands, channel)
    {
      assert commands[i..][1..] == commands[i + 1..];
      var family := Family(commands[i]);
      var sub: seq<Call>, subErr: Option<ParseError> := [], None;
      if family == "BSWV" {
        sub, subErr := ParseBswv(Arguments(commands[i]), channel);
      } else if family == "OUTP" {
        sub, subErr := ParseOutp(Arguments(commands[i]), channel);
      }
      calls := calls + sub;
      if subErr.Some? {
        return calls, subErr;
      }
    }
    assert commands[|commands|..] == [];
    err := None;
  }

  // ---------------------------------------------------------------------
  // Properties of the dispatch.
  // ---------------------------------------------------------------------

  /** Every call but set_phase carries the given channel. */
  predicate OnChannel(calls: seq<Call>, channel: int)
  {
    forall i :: 0 <= i < |calls| ==> calls[i].SetPhase? || calls[i].channel == channel
  }

  lemma {:induction false} BswvOnChannel(args: seq<string>, channel: int, n: nat)
    ensures OnChannel(BswvFrom(args, channel, n).calls, channel)
    decreases |args| - n
  {
    if n < |args| {
      if args[n] == "WVTP" || IsBswvSetter(args[n]) {
        BswvOnChannel(args, channel, n + 2);
      } else {
        BswvOnChannel(args, channel, n + 1);
      }
    }
  }

  lemma {:induction false} OutpOnChannel(args: seq<string>, channel: int, n: nat)
    ensures OnChannel(OutpFrom(args, channel, n).calls, channel)
    decreases |args| - n
  {
    if n < |args| {
      if args[n] == "LOAD" {
        OutpOnChannel(args, channel, n + 2);
      } else {
        OutpOnChannel(args, channel, n + 1);
      }
    }
  }

  lemma {:induction false} CommandsOnChannel(commands: seq<string>, channel: int)
    ensures OnChannel(CommandsTrace(commands, channel).calls, channel)
    decreases |commands|
  {
    if |commands| > 0 {
      BswvOnChannel(Arguments(commands[0]), channel, 0);
      OutpOnChannel(Arguments(commands[0]), channel, 0);
      CommandsOnChannel(commands[1..], channel);
    }
  }

  /** Every call a line makes, set_phase aside, goes to the channel digit at index 1. */
  lemma LineOnChannel(line: string)
    requires |line| >= 2 && IsDigit(line[1])
    ensures OnChannel(LineTrace(line).calls, DigitValue(line[1]))
  {
    CommandsOnChannel(Split(From(line, 3), ';'), DigitValue(line[1]));
  }

  lemma ThenAssociative(a: Trace, b: Trace, c: Trace)
    ensures Then(Then(a, b), c) == Then(a, Then(b, c))
  {
  }

  /**
   * Sub-commands run in textual order: appending one to a line appends its
   * calls, unless an earlier sub-command raised.
   */
  lemma {:induction false} CommandsAppend(commands: seq<string>, command: string, channel: int)
    ensures CommandsTrace(commands + [command], channel)
         == Then(CommandsTrace(commands, channel), SubCommandTrace(command, channel))
    decreases |commands|
  {
    if |commands| == 0 {
      assert [command][1..] == [];
    } else {
      assert (commands + [command])[1..] == commands[1..] + [command];
      CommandsAppend(commands[1..], command, channel);
      ThenAssociative(SubCommandTrace(commands[0], channel), CommandsTrace(commands[1..], channel), SubCommandTrace(command, channel));
    }
  }

  /** Each BSWV call uses up two tokens (a final setter may lack its argument). */
  lemma {:induction false} BswvCallBound(args: seq<string>, channel: int, n: nat)
    ensures 2 * |BswvFrom(args, channel, n).calls| <= |args| - n + 1 || BswvFrom(args, channel, n).calls == []
    decreases |args| - n
  {
    if n < |args| {
      if args[n] == "WVTP" || IsBswvSetter(args[n]) {
        BswvCallBound(args, channel, n + 2);
      } else {
        BswvCallBound(args, channel, n + 1);
      }
    }
  }

  /** Each OUTP call uses up at least one token. */
  lemma {:induction false} OutpCallBound(args: seq<string>, channel: int, n: nat)
    requires n <= |args|
    ensures |OutpFrom(args, channel, n).calls| <= |args| - n
    decreases |args| - n
  {
    if n < |args| {
      if args[n] == "LOAD" {
        if n + 1 < |args| {
          OutpCallBound(args, channel, n + 2);
        }
      } else {
        OutpCallBound(args, channel, n + 1);
      }
    }
  }

  /** The call the BSWV key at position k makes, if it makes one. */
  function BswvCallAt(args: seq<string>, channel: int, k: nat): Option<Call>
    requires k < |args|
  {
    if args[k] == "WVTP" then Some(SetWaveType(channel, Sine))
    else if IsBswvSetter(args[k]) && k + 1 < |args| then Some(BswvSetter(args[k], channel, args[k + 1]))
    else None
  }

  /**
   * Every BSWV call comes from a key at some position: a sine for WVTP, or
   * the matching setter with the token right after the key.
   */
  lemma {:induction false} BswvCallsFromKeys(args: seq<string>, channel: int, n: nat)
    ensures forall c :: c in BswvFrom(args, channel, n).calls ==>
      exists k :: n <= k < |args| && BswvCallAt(args, channel, k) == Some(c)
    decreases |args| - n
  {
    if n < |args| {
      if args[n] == "WVTP" || IsBswvSetter(args[n]) {
        BswvCallsFromKeys(args, channel, n + 2);
        var t := BswvFrom(args, channel, n);
        forall c | c in t.calls
          ensures exists k :: n <= k < |args| && BswvCallAt(args, channel, k) == Some(c)
        {
          if c == t.calls[0] {
            assert BswvCallAt(args, channel, n) == Some(c);
          } else {
            assert c in BswvFrom(args, channel, n + 2).calls;
          }
        }
      } else {
        BswvCallsFromKeys(args, channel, n + 1);
      }
    }
  }

  /** BSWV from position n sees only the tokens from n on. */
  lemma {:induction false} BswvSuffix(args: seq<string>, channel: int, n: nat, m: nat)
    requires n <= |args|
    ensures BswvFrom(args, channel, n + m) == BswvFrom(args[n..], channel, m)
    decreases |args| - n - m
  {
    if n + m < |args| {
      BswvSuffix(args, channel, n, m + 1);
      BswvSuffix(args, channel, n, m + 2);
    }
  }

  /** OUTP from position n sees only the tokens from n on. */
  lemma {:induction false} OutpSuffix(args: seq<string>, channel: int, n: nat, m: nat)
    requires n <= |args|
    ensures OutpFrom(args, channel, n + m) == OutpFrom(args[n..], channel, m)
    decreases |args| - n - m
  {
    if n + m < |args| {
      OutpSuffix(args, channel, n, m + 1);
      OutpSuffix(args, channel, n, m + 2);
    }
  }

  /** WVTP sets a sine whatever its argument says. */
  lemma WaveTypeArgumentIgnored(shape: string, rest: seq<string>, channel: int)
    ensures BswvFrom(["WVTP", shape] + rest, channel, 0)
         == Prefixed([SetWaveType(channel, Sine)], BswvFrom(rest, channel, 0))
  {
    var args := ["WVTP", shape] + rest;
    BswvSuffix(args, channel, 2, 0);
    assert args[2..] == rest;
  }
}
