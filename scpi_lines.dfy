/**
 * The command lines the oscilloscope sends, worked through the dispatcher of
 * command_parser.py: the setup line documented in parse_scpi_command, the
 * per-point frequency step of a sweep, and the Hi-Z load selection.
 */
module ScpiLines {
  import opened Wrappers
  import opened PyText
  import opened AwgCommon
  import opened ScpiParser

  /** A token that holds neither separator. */
  predicate Token(s: string)
  {
    ';' !in s && ',' !in s
  }

  /**
   * "C<d>:" followed by sub-commands joined with ';' runs each of them on
   * channel d, in order, as long as the line is not a query.
   */
  lemma LineOf(d: char, commands: seq<string>)
    requires IsDigit(d) && |commands| >= 1
    requires forall i :: 0 <= i < |commands| ==> ';' !in commands[i]
    requires commands[|commands| - 1] != [] && commands[|commands| - 1][|commands[|commands| - 1]| - 1] != '?'
    ensures LineTrace("C" + [d] + ":" + Join(commands, ';')) == CommandsTrace(commands, DigitValue(d))
  {
    var body := Join(commands, ';');
    var line := "C" + [d] + ":" + body;
    JoinLast(commands, ';');
    SplitJoin(commands, ';');
    assert From(line, 3) == body;
    assert line[1] == d;
    assert line[|line| - 1] == body[|body| - 1];
  }

  /** A four-letter family and a space, then comma-joined tokens: the family and the tokens are what the dispatcher sees. */
  lemma CommandParts(head: string, args: seq<string>)
    requires |head| == 5 && |args| >= 1
    requires forall i :: 0 <= i < |args| ==> ',' !in args[i]
    ensures Family(head + Join(args, ',')) == head[..4]
    ensures Arguments(head + Join(args, ',')) == args
  {
    var c := head + Join(args, ',');
    assert c[..4] == head[..4];
    assert From(c, 5) == Join(args, ',');
    SplitJoin(args, ',');
  }

  /** Three sub-commands run one after another, stopping at the first exception. */
  lemma ThreeCommands(c1: string, c2: string, c3: string, channel: int)
    ensures CommandsTrace([c1, c2, c3], channel)
         == Then(SubCommandTrace(c1, channel), Then(SubCommandTrace(c2, channel), SubCommandTrace(c3, channel)))
  {
    var commands := [c1, c2, c3];
    assert commands[1..] == [c2, c3] && commands[1..][1..] == [c3] && commands[1..][1..][1..] == [];
    var t3 := SubCommandTrace(c3, channel);
    assert t3.calls + [] == t3.calls;
    assert CommandsTrace([c3], channel) == t3;
  }

  /** "OUTP LOAD,<z>" sets the load impedance z names. */
  lemma LoadCommand(z: string, channel: int)
    requires Token(z) && LoadValue(z).Some?
    ensures SubCommandTrace("OUTP " + Join(["LOAD", z], ','), channel)
         == Trace([SetLoadImpedance(channel, LoadValue(z).value)], None)
  {
    var args := ["LOAD", z];
    CommandParts("OUTP ", args);
    assert "OUTP "[..4] == "OUTP";
    assert SubCommandTrace("OUTP " + Join(args, ','), channel) == OutpFrom(args, channel, 0);
    assert OutpFrom(args, channel, 0) == Prefixed([SetLoadImpedance(channel, LoadValue(z).value)], OutpFrom(args, channel, 2));
  }

  /** "OUTP ON" switches the output on. */
  lemma OutputOnCommand(channel: int)
    ensures SubCommandTrace("OUTP " + Join(["ON"], ','), channel) == Trace([EnableOutput(channel, true)], None)
  {
    var args := ["ON"];
    CommandParts("OUTP ", args);
    assert "OUTP "[..4] == "OUTP";
    assert SubCommandTrace("OUTP " + Join(args, ','), channel) == OutpFrom(args, channel, 0);
    assert OutpFrom(args, channel, 0) == Prefixed([EnableOutput(channel, true)], OutpFrom(args, channel, 1));
  }

  /** The arguments of the BSWV setup command before a sweep. */
  function SetupArguments(w: string, ph: string, f: string, a: string, o: string): (args: seq<string>)
    ensures |args| == 10
  {
    ["WVTP", w, "PHSE", ph, "FRQ", f, "AMP", a, "OFST", o]
  }

  /** The setup command sets a sine, the phase, the frequency, the amplitude and the offset, in that order. */
  lemma SetupCommand(w: string, ph: string, f: string, a: string, o: string, channel: int)
    requires Token(w) && Token(ph) && Token(f) && Token(a) && Token(o)
    ensures SubCommandTrace("BSWV " + Join(SetupArguments(w, ph, f, a, o), ','), channel)
         == Trace([SetWaveType(channel, Sine), SetPhase(ph), SetFrequency(channel, f), SetAmplitude(channel, a), SetOffset(channel, o)], None)
  {
    var args := SetupArguments(w, ph, f, a, o);
    assert forall i :: 0 <= i < |args| ==> ',' !in args[i] by {
      assert Token("WVTP") && Token("PHSE") && Token("FRQ") && Token("AMP") && Token("OFST");
    }
    CommandParts("BSWV ", args);
    assert "BSWV "[..4] == "BSWV";
    assert BswvFrom(args, channel, 8) == Trace([SetOffset(channel, o)], None);
    assert BswvFrom(args, channel, 6) == Prefixed([SetAmplitude(channel, a)], BswvFrom(args, channel, 8));
    assert BswvFrom(args, channel, 4) == Prefixed([SetFrequency(channel, f)], BswvFrom(args, channel, 6));
    assert BswvFrom(args, channel, 2) == Prefixed([SetPhase(ph)], BswvFrom(args, channel, 4));
    assert BswvFrom(args, channel, 0) == Prefixed([SetWaveType(channel, Sine)], BswvFrom(args, channel, 2));
  }

  /**
   * The documented setup line "C1:OUTP LOAD,50;BSWV WVTP,SINE,PHSE,0,FRQ,50000,AMP,2,OFST,0;OUTP ON",
   * for any channel digit and any argument tokens: load, sine, phase,
   * frequency, amplitude, offset, output on, in that order.
   */
  lemma SetupLine(d: char, z: string, w: string, ph: string, f: string, a: string, o: string)
    requires IsDigit(d) && Token(z) && Token(w) && Token(ph) && Token(f) && Token(a) && Token(o)
    requires LoadValue(z).Some?
    ensures var ch := DigitValue(d);
      LineTrace("C" + [d] + ":" + Join(["OUTP " + Join(["LOAD", z], ','),
                                        "BSWV " + Join(SetupArguments(w, ph, f, a, o), ','),
                                        "OUTP " + Join(["ON"], ',')], ';'))
      == Trace([SetLoadImpedance(ch, LoadValue(z).value), SetWaveType(ch, Sine), SetPhase(ph),
                SetFrequency(ch, f), SetAmplitude(ch, a), SetOffset(ch, o), EnableOutput(ch, true)], None)
  {
    var ch := DigitValue(d);
    var c1 := "OUTP " + Join(["LOAD", z], ',');
    var c2 := "BSWV " + Join(SetupArguments(w, ph, f, a, o), ',');
    var c3 := "OUTP " + Join(["ON"], ',');
    JoinNoSemicolon(["LOAD", z]);
    JoinNoSemicolon(SetupArguments(w, ph, f, a, o));
    assert c3 == "OUTP ON";
    var commands := [c1, c2, c3];
    assert forall i :: 0 <= i < |commands| ==> ';' !in commands[i];
    LineOf(d, commands);
    ThreeCommands(c1, c2, c3, ch);
    LoadCommand(z, ch);
    SetupCommand(w, ph, f, a, o, ch);
    OutputOnCommand(ch);
    var k1, k2, k3, k4 := SetLoadImpedance(ch, LoadValue(z).value), SetWaveType(ch, Sine), SetPhase(ph), SetFrequency(ch, f);
    var k5, k6, k7 := SetAmplitude(ch, a), SetOffset(ch, o), EnableOutput(ch, true);
    ThenClean([k1], [k2, k3, k4, k5, k6], [k7]);
    assert CommandsTrace(commands, ch) == Trace([k1] + [k2, k3, k4, k5, k6] + [k7], None);
    SevenCalls(k1, k2, k3, k4, k5, k6, k7);
  }

  lemma SevenCalls(c1: Call, c2: Call, c3: Call, c4: Call, c5: Call, c6: Call, c7: Call)
    ensures [c1] + [c2, c3, c4, c5, c6] + [c7] == [c1, c2, c3, c4, c5, c6, c7]
  {
  }

  /** Three sub-commands that raise nothing make the calls of all three, in order. */
  lemma ThenClean(a: seq<Call>, b: seq<Call>, c: seq<Call>)
    ensures Then(Trace(a, None), Then(Trace(b, None), Trace(c, None))) == Trace(a + b + c, None)
  {
    assert a + (b + c) == a + b + c;
  }

  /** Tokens joined with ',' hold no ';'. */
  lemma {:induction false} JoinNoSemicolon(parts: seq<string>)
    requires |parts| >= 1
    requires forall i :: 0 <= i < |parts| ==> ';' !in parts[i]
    ensures ';' !in Join(parts, ',')
    decreases |parts|
  {
    if |parts| > 1 {
      JoinNoSemicolon(parts[1..]);
    }
  }

  /** The value 50 of the documented line is a 50 ohm load. */
  lemma FiftyOhms()
    ensures LoadValue("50") == Some(Ohms(50.0))
  {
    assert AllDigits("50");
    assert "50"[..1] == "5" && "5"[..0] == "";
    assert DigitsValue("50") == 50;
  }

  /** "BSWV FRQ,<f>" sets the frequency and nothing else. */
  lemma FrequencyCommand(f: string, channel: int)
    requires Token(f)
    ensures SubCommandTrace("BSWV " + Join(["FRQ", f], ','), channel) == Trace([SetFrequency(channel, f)], None)
  {
    var args := ["FRQ", f];
    CommandParts("BSWV ", args);
    assert "BSWV "[..4] == "BSWV";
    assert BswvFrom(args, channel, 0) == Prefixed([SetFrequency(channel, f)], BswvFrom(args, channel, 2));
  }

  /** One sub-command on a line runs alone. */
  lemma OneCommand(c: string, channel: int)
    ensures CommandsTrace([c], channel) == SubCommandTrace(c, channel)
  {
    var t := SubCommandTrace(c, channel);
    assert [c][1..] == [];
    assert t.calls + [] == t.calls;
  }

  /** A sweep step "C<d>:BSWV FRQ,<f>" sets that channel's frequency and nothing else. */
  lemma SweepStep(d: char, f: string)
    requires IsDigit(d) && Token(f) && f != [] && f[|f| - 1] != '?'
    ensures LineTrace("C" + [d] + ":" + Join(["BSWV " + Join(["FRQ", f], ',')], ';'))
         == Trace([SetFrequency(DigitValue(d), f)], None)
  {
    var c := "BSWV " + Join(["FRQ", f], ',');
    JoinNoSemicolon(["FRQ", f]);
    JoinLast(["FRQ", f], ',');
    assert c[|c| - 1] == f[|f| - 1];
    LineOf(d, [c]);
    OneCommand(c, DigitValue(d));
    FrequencyCommand(f, DigitValue(d));
  }

  /** "C<d>:OUTP LOAD,HZ" selects a Hi-Z load on that channel. */
  lemma HiZLine(d: char)
    requires IsDigit(d)
    ensures LineTrace("C" + [d] + ":" + Join(["OUTP " + Join(["LOAD", "HZ"], ',')], ';'))
         == Trace([SetLoadImpedance(DigitValue(d), HiZ)], None)
  {
    var c := "OUTP " + Join(["LOAD", "HZ"], ',');
    assert c == "OUTP LOAD,HZ";
    LineOf(d, [c]);
    OneCommand(c, DigitValue(d));
    assert Token("HZ") && LoadValue("HZ") == Some(HiZ);
    LoadCommand("HZ", DigitValue(d));
  }
}
