# sds1004x_bode bridge, modelled in Dafny

sds1004x_bode lets a Siglent SDS1004X-E oscilloscope run Bode plots with a
third-party signal generator. The oscilloscope sends a Siglent SDG
generator RPCBIND (portmapper) and VXI-11 requests. The bridge answers
them as if it were an SDG. It turns the SCPI lines it receives into calls on
a driver for the real generator, which writes commands to a serial port.

This project models the core of the bridge and proves properties of it:

- **The RPC/VXI-11 codec of `awg_server.py`.** Modules `ByteCodec`,
  `RpcFrame` and `Vxi11`. They cover:
  - big-endian words;
  - the reply envelope: the record-marking header and the accepted-reply
    header of RFC 5531;
  - the CREATE_LINK, DEVICE_READ and GETPORT payloads;
  - the fixed-offset parse of VXI-11 requests;
  - the RPCBIND probe check.

  A reference encoder of the calls an oscilloscope sends is the partner
  the parser is proved against.
- **The server loops of `awg_server.py`.** Module `Session`.
  - `process_lxi_requests` is a function over the buffers `recv` returns,
    with an imperative method proved equal to it.
  - `main_loop` works over successive probes and links.
- **`command_parser.py`.** Modules `ScpiParser` and `ScpiLines`.
  - One SCPI line becomes the ordered trace of driver calls it makes, or the
    exception the parser raises.
  - The index loops of `parse_bswv` and `parse_outp` are methods proved equal
    to that trace.
  - The documented line shapes are worked through the dispatcher.
- **The drivers.** Modules `Jds6600`, `Fy6600`, `Fy3200s`, `Bk4075` and
  `Fygen`, with the vocabulary they share in `AwgCommon`.
  - Each driver is a class with the fields the Python object updates in
    place: output flags, loads, divider coefficients, the port and the log of
    commands written.
  - The commands are given by functions, and the methods are proved to write
    exactly those.
  - `fy.py`'s write, read-back and retry transport is modelled with the
    generator's future replies as a queue.
- **`awg_factory.py`.** Module `Factory`: the name-to-driver dictionary and
  the registry built at import time.

`PyText` holds the Python string operations the bridge relies on:
- clamped slicing;
- `str.strip()`;
- `str.split()`;
- `int()` of decimal text;
- `"%u"` and `"%0Nu"`.

`Wrappers` holds `Option` and `Result`.

Exceptions become values:
- `Fault` for the drivers;
- `ParseError` for the parser;
- `Crash` for a link that raised.

Sockets, serial ports and sleeps are replaced by what was received, what
was written and what the generator will reply.

Three behaviours of the code shape the model:
- **Retry writes.** `_retry` in `fy.py` writes the setting at most
  RETRY_COUNT times, after one read-back.
- **Exhausted retries.** Once every attempt is spent, `_retry` reaches
  `sys.stderr.write`, and `sys` is never imported in `fy.py`: the call ends
  in a NameError (`MissingSys`).
- **Exceptions in a link.** Nothing in `process_lxi_requests` or
  `main_loop` catches an exception. One raised while serving a link, by a
  malformed SCPI line or by the generator's driver (UnknownChannelError for
  "C3:...", the NameError above), leaves both loops and ends the server
  (`Crashed`, `LinkCrashed`). The session takes the driver as a `Driver`,
  the calls on which it raises; a DEVICE_WRITE stops at the first such
  call (`DriverFailed`).

## Model

| member | source | states |
|---|---|---|
| ByteCodec.BytesToUint | sds1004x_bode/awg_server.py:354-367 | a value exists exactly when at least four bytes are given, and it is below 2^32 |
| ByteCodec.UintToBytes | sds1004x_bode/awg_server.py:369-378 | always four bytes |
| ByteCodec.UintRoundTrip | sds1004x_bode/awg_server.py:354-378 | decoding the encoding of any 32-bit value gives it back |
| ByteCodec.BytesRoundTrip | sds1004x_bode/awg_server.py:354-378 | encoding the value of any four bytes gives the same bytes |
| ByteCodec.UintKeepsLowBits | sds1004x_bode/awg_server.py:369-378 | only the low 32 bits reach the wire: n and n mod 2^32 encode alike, negatives included |
| ByteCodec.UintMostSignificantFirst | sds1004x_bode/awg_server.py:369-378 | the first byte is n div 2^24, the last n mod 256 |
| RpcFrame.Ascii | sds1004x_bode/awg_server.py:28 | one byte per character, with its code |
| RpcFrame.AwgIdString | sds1004x_bode/awg_server.py:28 | the identification is 21 bytes long |
| RpcFrame.GetXid | sds1004x_bode/awg_server.py:262-267 | at most four bytes, and exactly bytes 4..8 of a request of at least 8 bytes |
| RpcFrame.WithLastFragment | sds1004x_bode/awg_server.py:283-291 | setting the top bit keeps the size modulo 2^31 and adds 2^31 to a size below it |
| RpcFrame.PacketSizeHeader | sds1004x_bode/awg_server.py:283-291 | four bytes that decode to 0x80000000 + size |
| RpcFrame.RpcHeader | sds1004x_bode/awg_server.py:293-312 | the xid followed by five more words |
| RpcFrame.GenerateRespData | sds1004x_bode/awg_server.py:269-281 | the reply length is 24 + the xid length + the payload length |
| RpcFrame.RespDataLayout | sds1004x_bode/awg_server.py:269-312 | the reply is the last-fragment word of 24 + payload length, the echoed xid, the words 1, 0, 0, 0, 0, then the payload unchanged |
| RpcFrame.RpcbindResponse | sds1004x_bode/awg_server.py:318-321 | one word that decodes to the VXI-11 port |
| RpcFrame.CreateLinkResponse | sds1004x_bode/awg_server.py:323-335 | error 0, link id 0, abort port 0, then the encoding of the maximum receive size 8388608 |
| RpcFrame.IdnResponse | sds1004x_bode/awg_server.py:337-348 | 15 bytes longer than the identification |
| RpcFrame.IdnLayout | sds1004x_bode/awg_server.py:337-348 | error 0, reason END, a length word of the identification plus 3, the identification, then newline and two zero bytes |
| RpcFrame.AwgIdReplyAligned | sds1004x_bode/awg_server.py:25-28 | the identification carries SDG where the oscilloscope looks for it, and its opaque needs no XDR padding; the DEVICE_READ payload is 36 bytes |
| Vxi11.WordAt | sds1004x_bode/awg_server.py:235-250 | a word exists exactly when the buffer holds its four bytes, and it is their big-endian value |
| Vxi11.Text | sds1004x_bode/awg_server.py:260 | one character per byte, with its code |
| Vxi11.ParseLxiRequestCases | sds1004x_bode/awg_server.py:226-260 | IndexError only on a buffer too short for a word read; NOT_VXI11 for any other program; otherwise the procedure at 0x18, OK exactly for the four link procedures, and UNKNOWN_COMMAND with an empty command for the rest |
| Vxi11.WriteCommandTruncated | sds1004x_bode/awg_server.py:248-250 | a DEVICE_WRITE length past the end of the buffer yields every byte after 0x40, stripped |
| Vxi11.ProcessRpcbindRequestCases | sds1004x_bode/awg_server.py:129-151 | an empty receive is OK with no reply; a non-GETPORT procedure is refused; a reply carrying the port is sent exactly for GETPORT of the VXI-11 core program; the connection is closed exactly when OK is returned |
| Vxi11.CallXid | sds1004x_bode/awg_server.py:262-267 | every encoded call carries its xid where get_xid reads it |
| Vxi11.ParseFields | sds1004x_bode/awg_server.py:240-250 | with the core program and CREATE_LINK or DEVICE_WRITE, the command is the stripped text of the length-word-long slice after the length word |
| Vxi11.ParseFrame | sds1004x_bode/awg_server.py:245-250 | a framed CREATE_LINK or DEVICE_WRITE parses to the first len bytes of its opaque, stripped |
| Vxi11.ParseDeviceWrite | sds1004x_bode/awg_server.py:248-250 | the data a DEVICE_WRITE carries comes back from the parse, stripped |
| Vxi11.ParseCreateLink | sds1004x_bode/awg_server.py:245-247 | the device name a CREATE_LINK carries comes back from the parse, stripped |
| Vxi11.ParseNoCommand | sds1004x_bode/awg_server.py:251-254 | a framed DEVICE_READ or DESTROY_LINK parses to its procedure with an empty command |
| Vxi11.ParseReadAndDestroy | sds1004x_bode/awg_server.py:251-254 | the encoded DEVICE_READ and DESTROY_LINK parse to their procedures with an empty command |
| Vxi11.GetPortAnswered | sds1004x_bode/awg_server.py:129-151 | a GETPORT probe for the VXI-11 core is answered with the port under the probe's xid; one for another program is refused without a reply |
| Vxi11.GetPortWords | sds1004x_bode/awg_server.py:139-142 | the procedure and program offsets read from a framed probe land on its procedure and program words |
| Session.FirstRaise | sds1004x_bode/awg_server.py:174-179 | the index of the first call the driver raises on: every call before it is accepted, the call at it raises, and it is the length exactly when no call raises |
| Session.ServeBuffer | sds1004x_bode/awg_server.py:156-221 | the loop body equals the step function on every buffer, bound payload and driver |
| Session.ServeWrite | sds1004x_bode/awg_server.py:174-179 | the DEVICE_WRITE branch makes the line's calls up to the first the driver raises on and ends the link there; otherwise ends it in the parser's exception, or in UnboundLocalError when no payload is bound; otherwise answers with the bound payload |
| Session.ProcessLxiRequests | sds1004x_bode/awg_server.py:153-224 | the loop's replies, calls and end equal the run function from an unbound payload, including a run that ends in a driver's exception |
| Session.RunFrom | sds1004x_bode/awg_server.py:155-221 | the run from buffer i is buffer i's step followed by the run from i + 1 |
| Session.StopsForGood | sds1004x_bode/awg_server.py:161-217 | once the loop is left, buffers after it change nothing |
| Session.EmptyReceivesIgnored | sds1004x_bode/awg_server.py:157 | an empty receive anywhere on the link changes nothing |
| Session.RepliesAnswerRequests | sds1004x_bode/awg_server.py:153-221 | every reply sent is the framed answer to one of the received requests, carrying the CREATE_LINK or the identification payload |
| Session.AnswerStep | sds1004x_bode/awg_server.py:170-221 | an answering step replies to its own request with one of the two payloads and binds one of them |
| Session.ReplyEchoesXid | sds1004x_bode/awg_server.py:269-281 | a reply echoes its request's xid, and a 16- or 36-byte payload follows the 28-byte header |
| Session.FirstWriteUnanswered | sds1004x_bode/awg_server.py:174-221 | a DEVICE_WRITE before any payload was bound, whose calls the driver accepts, makes them, then raises instead of replying |
| Session.CreateLinkStep | sds1004x_bode/awg_server.py:171-172 | CREATE_LINK is answered with its payload, which it binds |
| Session.DeviceWriteStep | sds1004x_bode/awg_server.py:174-179 | a DEVICE_WRITE whose line raises nothing, in the parser or in the driver, makes the line's calls and is answered with the payload already bound |
| Session.DriverFaultStep | sds1004x_bode/awg_server.py:174-179 | a DEVICE_WRITE whose line makes a call the driver raises on makes the calls up to and including that one, then leaves the loop with the driver's exception, whatever the payload |
| Session.DriverFaultEndsLink | sds1004x_bode/awg_server.py:153-224 | a run that reaches such a DEVICE_WRITE ends there, with no reply to it |
| Session.SweepStepRejected | sds1004x_bode/awg_server.py:153-224 | after CREATE_LINK, a sweep step "C<d>:BSWV FRQ,<f>" on a channel the driver rejects gets the CREATE_LINK reply, makes the one set_frequency call, and ends the link in the driver's exception |
| Session.SingleCallRejected | sds1004x_bode/awg_server.py:153-224 | after CREATE_LINK, a DEVICE_WRITE whose line makes one call, on which the driver raises, gets only the CREATE_LINK reply, makes that call, and ends the link in the driver's exception |
| Session.ReadAndDestroySteps | sds1004x_bode/awg_server.py:181-209 | DEVICE_READ is answered with the identification, which it binds; DESTROY_LINK leaves the loop |
| Session.AnsweredAt | sds1004x_bode/awg_server.py:219-221 | an answered buffer's reply and calls come before the rest of the run |
| Session.StoppedAt | sds1004x_bode/awg_server.py:161-217 | a buffer that leaves the loop ends the run with its calls |
| Session.CreateLinkFirst | sds1004x_bode/awg_server.py:171-172 | a run opening with CREATE_LINK answers it and goes on with its payload bound |
| Session.DeviceWriteFirst | sds1004x_bode/awg_server.py:174-179 | a run opening with a clean DEVICE_WRITE makes its calls, answers with the bound payload, and goes on with it |
| Session.ReadThenDestroy | sds1004x_bode/awg_server.py:181-209 | DEVICE_READ then DESTROY_LINK: one identification reply, then the link ends |
| Session.OscilloscopeSession | sds1004x_bode/awg_server.py:153-224 | CREATE_LINK, a DEVICE_WRITE whose calls the driver accepts, DEVICE_READ, DESTROY_LINK: three replies (the write answered with the CREATE_LINK payload), the line's calls, and the link destroyed; later buffers are never read |
| Session.MainLoop | sds1004x_bode/awg_server.py:110-124 | the loop's GETPORT replies, served links and stopping point equal the server run over what process_rpcbind_request makes of each probe and what process_lxi_requests makes of each connection |
| Session.Rounds | sds1004x_bode/awg_server.py:116-123 | given what each connection comes to, the loop's replies, links and stopping point equal the server run |
| Session.ServeRound | sds1004x_bode/awg_server.py:117-123 | one pass of the loop adds its GETPORT reply and its link to the run so far, and either stops the server where the run stops or leaves the rest of the run to the next probe and the next unused connection |
| Session.RoundOutcome | sds1004x_bode/awg_server.py:117-123 | a round stops the server with ProbeCrashed exactly when the probe raised; it goes on exactly when the probe was refused or admitted a link that returned (destroyed or refused); it uses a connection exactly when the probe returned OK and one is there; it sends the probe's reply |
| Session.ProbedAt | sds1004x_bode/awg_server.py:117 | the k-th probe outcome is process_rpcbind_request on the k-th probe |
| Session.LinkResultsAt | sds1004x_bode/awg_server.py:123 | the k-th link result is process_lxi_requests on the k-th connection, from an unbound payload |
| Session.RoundAt | sds1004x_bode/awg_server.py:115-123 | the run from probe p and connection l is one round, as RoundOutcome gives it, then (unless the round stopped the server) the run from probe p + 1 and the next unused connection |
| Session.Advance | sds1004x_bode/awg_server.py:115-123 | the loop's invariant carried over one round: what was sent and served so far, followed by the rest of the run, is unchanged by the round |
| Session.ProbeCrashes | sds1004x_bode/awg_server.py:116-123 | a probe that raises ends the server |
| Session.ProbeRefused | sds1004x_bode/awg_server.py:119-122 | a probe returning an error code is followed by the next probe, with no link served |
| Session.ProbeAdmits | sds1004x_bode/awg_server.py:119-123 | a probe returning OK is followed by one whole link; the loop goes on only if that link ended without an exception |
| Session.ServedInOrder | sds1004x_bode/awg_server.py:116-123 | the links served are a prefix of the links accepted, in order |
| Session.LinksStartUnbound | sds1004x_bode/awg_server.py:153-156 | the k-th link served is process_lxi_requests on the k-th connection, with the payload unbound |
| Session.SweepRound | sds1004x_bode/awg_server.py:116-123 | an answered probe admits the next link, and a link ending in DESTROY_LINK hands the loop on to the next probe |
| ScpiParser.LoadValue | sds1004x_bode/command_parser.py:115-119 | HZ is Hi-Z; other text is accepted exactly when int() accepts it, as that many ohms |
| ScpiParser.SubCommandTrace | sds1004x_bode/command_parser.py:42-50 | a sub-command whose family is neither BSWV nor OUTP does nothing |
| ScpiParser.LineTrace | sds1004x_bode/command_parser.py:35-40 | a query does nothing; a line shorter than 2 raises IndexError; a non-digit channel raises ValueError; otherwise line[3:] split on ';' is run on that channel |
| ScpiParser.ParseBswv | sds1004x_bode/command_parser.py:52-92 | the index loop makes exactly the calls and exception of the BSWV trace |
| ScpiParser.ParseOutp | sds1004x_bode/command_parser.py:94-128 | the index loop makes exactly the calls and exception of the OUTP trace |
| ScpiParser.ParseScpiCommand | sds1004x_bode/command_parser.py:21-50 | the parser makes exactly the calls and exception of the line trace |
| ScpiParser.BswvOnChannel | sds1004x_bode/command_parser.py:61-92 | every BSWV call except set_phase goes to the given channel |
| ScpiParser.OutpOnChannel | sds1004x_bode/command_parser.py:109-128 | every OUTP call goes to the given channel |
| ScpiParser.CommandsOnChannel | sds1004x_bode/command_parser.py:42-50 | every call of a run of sub-commands, set_phase aside, goes to the given channel |
| ScpiParser.LineOnChannel | sds1004x_bode/command_parser.py:38-50 | every call a line makes, set_phase aside, goes to the channel digit at index 1 |
| ScpiParser.CommandsAppend | sds1004x_bode/command_parser.py:42-50 | sub-commands run in textual order: appending one appends its trace unless an earlier one raised |
| ScpiParser.BswvCallBound | sds1004x_bode/command_parser.py:61-92 | each BSWV call uses up two tokens |
| ScpiParser.OutpCallBound | sds1004x_bode/command_parser.py:109-128 | each OUTP call uses up at least one token |
| ScpiParser.BswvCallsFromKeys | sds1004x_bode/command_parser.py:61-92 | every BSWV call comes from a key token: a sine for WVTP, or the matching setter with the token after the key |
| ScpiParser.BswvSuffix | sds1004x_bode/command_parser.py:61-92 | the BSWV loop from position n sees only the tokens from n on |
| ScpiParser.OutpSuffix | sds1004x_bode/command_parser.py:109-128 | the OUTP loop from position n sees only the tokens from n on |
| ScpiParser.WaveTypeArgumentIgnored | sds1004x_bode/command_parser.py:63-69 | WVTP sets a sine whatever its argument is |
| ScpiLines.LineOf | sds1004x_bode/command_parser.py:35-50 | "C<d>:" and ';'-joined sub-commands run each of them on channel d, in order |
| ScpiLines.CommandParts | sds1004x_bode/command_parser.py:43-44 | a four-letter family, a space and comma-joined tokens give back that family and those tokens |
| ScpiLines.ThreeCommands | sds1004x_bode/command_parser.py:42-50 | three sub-commands run in order, stopping at the first exception |
| ScpiLines.LoadCommand | sds1004x_bode/command_parser.py:115-121 | "OUTP LOAD,<z>" makes exactly one set_load_impedance with the impedance z names |
| ScpiLines.OutputOnCommand | sds1004x_bode/command_parser.py:111-113 | "OUTP ON" makes exactly one enable_output(channel, True) |
| ScpiLines.SetupCommand | sds1004x_bode/command_parser.py:61-92 | the setup BSWV makes set_wave_type(SINE), set_phase, set_frequency, set_amplitue and set_offset, in that order |
| ScpiLines.SetupLine | sds1004x_bode/command_parser.py:27 | the documented setup line makes the load, sine, phase, frequency, amplitude, offset and output-on calls, in that order, on its channel |
| ScpiLines.FiftyOhms | sds1004x_bode/command_parser.py:119 | the LOAD value 50 is a 50 ohm load |
| ScpiLines.FrequencyCommand | sds1004x_bode/command_parser.py:71-74 | "BSWV FRQ,<f>" makes exactly one set_frequency |
| ScpiLines.OneCommand | sds1004x_bode/command_parser.py:42-50 | a single sub-command runs alone |
| ScpiLines.SweepStep | sds1004x_bode/command_parser.py:31 | a sweep step "C<d>:BSWV FRQ,<f>" sets that channel's frequency and nothing else |
| ScpiLines.HiZLine | sds1004x_bode/command_parser.py:115-120 | "C<d>:OUTP LOAD,HZ" selects a Hi-Z load on that channel |
| PyText.Slice | sds1004x_bode/awg_server.py:247 | the slice is clamped to the end of the sequence and holds the elements from i on |
| PyText.From | sds1004x_bode/command_parser.py:40 | s[i:] is the suffix, or empty past the end |
| PyText.StripKeepsTrimmed | sds1004x_bode/awg_server.py:260 | text without outer whitespace is left as it is |
| PyText.StripTrimmed | sds1004x_bode/awg_server.py:260 | the result has no outer whitespace, is no longer than the text, and is empty exactly when the text is all whitespace |
| PyText.StripIdempotent | sds1004x_bode/awg_server.py:260 | stripping twice is stripping once |
| PyText.Split | sds1004x_bode/command_parser.py:40 | split always yields at least one part |
| PyText.SplitPartsFree | sds1004x_bode/command_parser.py:40-44 | no part holds the separator |
| PyText.JoinSplit | sds1004x_bode/command_parser.py:40-44 | joining the parts with the separator restores the text |
| PyText.SplitJoin | sds1004x_bode/command_parser.py:40-44 | splitting a join of separator-free parts gives the parts back |
| PyText.SplitWithoutSep | sds1004x_bode/command_parser.py:40-44 | text without the separator is its own only part |
| PyText.SplitAfter | sds1004x_bode/command_parser.py:40-44 | a separator after a separator-free head starts a new part |
| PyText.SplitStep | sds1004x_bode/command_parser.py:40-44 | the first separator ends the first part |
| PyText.SplitAppend | sds1004x_bode/command_parser.py:40-44 | text after the last separator is the last part |
| PyText.Decimal | sds1004x_bode/awgdrivers/fy.py:112 | "%u" is a non-empty run of digits with no leading zero |
| PyText.ZeroPad | sds1004x_bode/awgdrivers/fy.py:102-103 | the text padded on the left with zeros to the width |
| PyText.ParseInt | sds1004x_bode/command_parser.py:119 | int() accepts exactly an optional sign followed by digits |
| PyText.ParseDigit | sds1004x_bode/command_parser.py:38 | int() of one character is its digit value, or ValueError |
| PyText.DecimalValue | sds1004x_bode/awgdrivers/fy.py:112 | the digits of "%u" read back as the number |
| PyText.NegativeText | sds1004x_bode/awgdrivers/fy.py:112 | a minus sign before digits reads back as the negated value |
| PyText.IntTextRoundTrip | sds1004x_bode/awgdrivers/fy.py:112 | int("%u" % n) == n for every integer |
| PyText.ZeroPadValue | sds1004x_bode/awgdrivers/fy.py:102-103 | zero padding keeps digits digits, with the same value |
| PyText.PaddedIntRoundTrip | sds1004x_bode/awgdrivers/fy.py:102-103 | int("%0Nu" % n) == n for every integer and width |
| AwgCommon.WriteFault | sds1004x_bode/awgdrivers/jds6600.py:54-57 | a write fails exactly when the port is not open |
| AwgCommon.Routed | sds1004x_bode/awgdrivers/jds6600.py:114-122 | channel 1 gets the first command, 2 the second, 0 and None both (first command first), any other channel none |
| AwgCommon.Slot | sds1004x_bode/awgdrivers/jds6600.py:181 | channel-1 indexes slot 0 for channel 1 and the last slot for 2 and 0; None cannot index |
| AwgCommon.EnabledAfter | sds1004x_bode/awgdrivers/jds6600.py:86-89 | channel 1 or 2 sets its own flag and keeps the other; 0 or None sets both |
| AwgCommon.EnableEachChannel | sds1004x_bode/awgdrivers/jds6600.py:86-89 | switching channels 1 and 2 in either order sets each flag independently; channel 0 then overrides both |
| AwgCommon.DividerCoefficient | sds1004x_bode/awgdrivers/jds6600.py:243-246 | 1 for Hi-Z; otherwise the coefficient times (z + 50) is z; division by zero exactly at z = -50 |
| AwgCommon.DividerNetScale | sds1004x_bode/awgdrivers/jds6600.py:236-246 | dividing by the coefficient scales a voltage by (z + 50)/z, doubles it at 50 ohms and keeps it for Hi-Z |
| AwgCommon.Adjusted | sds1004x_bode/awgdrivers/jds6600.py:181 | None raises; a zero coefficient raises ZeroDivision; otherwise the result times the channel's coefficient is the voltage asked for |
| AwgCommon.AdjustedOnLoad | sds1004x_bode/awgdrivers/jds6600.py:177-181 | after the coefficient of z is stored, a voltage asked of that channel is scaled by (z + 50)/z, and kept for Hi-Z |
| AwgCommon.Trunc | sds1004x_bode/awgdrivers/jds6600.py:214 | int() truncates toward zero |
| AwgCommon.RoundHalfAway | sds1004x_bode/awgdrivers/jds6600.py:137 | round() is within half of x, halves away from zero |
| AwgCommon.WrapPhase | sds1004x_bode/awgdrivers/jds6600.py:135-136 | a negative phase gets +360, others are kept; no result is negative from -360 on |
| Jds6600.JDS6600.constructor | sds1004x_bode/awgdrivers/jds6600.py:39-46 | both outputs off, 50 ohm loads, coefficients 1, no port |
| Jds6600.JDS6600.Connect | sds1004x_bode/awgdrivers/jds6600.py:48-49 | the port is open |
| Jds6600.JDS6600.Disconnect | sds1004x_bode/awgdrivers/jds6600.py:51-52 | closing a port never opened fails; otherwise the port is closed |
| Jds6600.JDS6600.SendCommand | sds1004x_bode/awgdrivers/jds6600.py:54-57 | the command is written exactly when the port is open |
| Jds6600.JDS6600.SendRouted | sds1004x_bode/awgdrivers/jds6600.py:114-122 | the routed commands are written in order, or the first write fails |
| Jds6600.JDS6600.EnableOutput | sds1004x_bode/awgdrivers/jds6600.py:71-94 | an unknown channel changes nothing; otherwise the flags are updated and both are written in one command |
| Jds6600.JDS6600.SetFrequency | sds1004x_bode/awgdrivers/jds6600.py:96-122 | an unknown channel writes nothing; otherwise the frequency commands of the channel are written |
| Jds6600.JDS6600.SetPhase | sds1004x_bode/awgdrivers/jds6600.py:124-139 | the phase command is written, with no channel check |
| Jds6600.JDS6600.SetWaveType | sds1004x_bode/awgdrivers/jds6600.py:141-163 | an unknown channel or a type outside WAVE_TYPES writes nothing; otherwise the wave commands are written |
| Jds6600.JDS6600.SetAmplitue | sds1004x_bode/awgdrivers/jds6600.py:165-194 | an unknown channel, None or a zero coefficient writes nothing; otherwise the amplitude divided by the coefficient is written |
| Jds6600.JDS6600.SetOffset | sds1004x_bode/awgdrivers/jds6600.py:196-224 | the same for the offset register |
| Jds6600.JDS6600.SetLoadImpedance | sds1004x_bode/awgdrivers/jds6600.py:226-247 | an unknown channel or None changes nothing; otherwise the load is stored in channel-1's slot, then its coefficient, unless that divides by zero |
| Jds6600.JDS6600.Initialize | sds1004x_bode/awgdrivers/jds6600.py:59-62 | the port is open, both flags are off, and one command switching both off is written |
| Jds6600.ChannelRouting | sds1004x_bode/awgdrivers/jds6600.py:114-224 | channel 1 touches only channel-1 registers, 2 only channel-2 registers, 0 and None both (channel 1 first), other channels none |
| Jds6600.OffsetCodeMeaning | sds1004x_bode/awgdrivers/jds6600.py:200-214 | the register is 1000 exactly for offsets under 10 mV, above and below it for positive and negative offsets, and in 1..1999 across the documented range |
| Jds6600.PhaseCodeRange | sds1004x_bode/awgdrivers/jds6600.py:129-137 | phases from -360 to 360 encode to 0..3600 tenths; a non-negative phase to its own tenths, rounded; a negative one as the phase + 360 |
| Jds6600.AmplitudeOnLoad | sds1004x_bode/awgdrivers/jds6600.py:177-181 | after a positive load z is set, the amplitude written is the one asked for times (z + 50)/z, twice it at 50 ohms |
| Fy6600.FY6600.constructor | sds1004x_bode/awgdrivers/fy6600.py:41-48 | both outputs off, 50 ohm loads, coefficients 1, no port |
| Fy6600.FY6600.Connect | sds1004x_bode/awgdrivers/fy6600.py:50-51 | the port is open |
| Fy6600.FY6600.Disconnect | sds1004x_bode/awgdrivers/fy6600.py:53-54 | closing a port never opened fails; otherwise the port is closed |
| Fy6600.FY6600.SendCommand | sds1004x_bode/awgdrivers/fy6600.py:56-59 | the command is written exactly when the port is open |
| Fy6600.FY6600.SendRouted | sds1004x_bode/awgdrivers/fy6600.py:188-196 | the routed commands are written in order, or the first write fails |
| Fy6600.FY6600.EnableOutput | sds1004x_bode/awgdrivers/fy6600.py:71-99 | an unknown channel changes nothing; otherwise the flags are updated and both are written, channel 1 first |
| Fy6600.FY6600.SetFrequency | sds1004x_bode/awgdrivers/fy6600.py:101-128 | an unknown channel writes nothing; otherwise the frequency commands of the channel are written |
| Fy6600.FY6600.SetPhase | sds1004x_bode/awgdrivers/fy6600.py:131-144 | the wrapped phase is written to channel 2, with no channel check |
| Fy6600.FY6600.SetWaveType | sds1004x_bode/awgdrivers/fy6600.py:146-168 | an unknown channel or a type outside WAVE_TYPES writes nothing; otherwise a sine is set |
| Fy6600.FY6600.SetAmplitue | sds1004x_bode/awgdrivers/fy6600.py:170-196 | an unknown channel, None or a zero coefficient writes nothing; otherwise the amplitude divided by the coefficient is written |
| Fy6600.FY6600.SetOffset | sds1004x_bode/awgdrivers/fy6600.py:198-219 | the same for the offset |
| Fy6600.FY6600.SetLoadImpedance | sds1004x_bode/awgdrivers/fy6600.py:221-242 | an unknown channel or None changes nothing; otherwise the load is stored in channel-1's slot, then its coefficient, unless that divides by zero |
| Fy6600.FY6600.Initialize | sds1004x_bode/awgdrivers/fy6600.py:61-64 | the port is open, both flags are off, and both off commands are written |
| Fy6600.NoneFrequencyFirstOnly | sds1004x_bode/awgdrivers/fy6600.py:113-215 | channel None sets only channel 1's frequency, channel 0 both, and None sets the wave type on both; set_amplitue and set_offset raise TypeError for None before sending anything (fy6600.py:185, 209) |
| Fy6600.ChannelTwoMnemonics | sds1004x_bode/awgdrivers/fy6600.py:120-219 | channel 2 is reached by WF commands only, channel 1's frequency by WMF, and the phase always by WFP |
| Fy6600.PhaseSentInTurn | sds1004x_bode/awgdrivers/fy6600.py:140-143 | the phase sent lies in [0, 360) and is the phase or the phase + 360 |
| Fy6600.AmplitudeOnLoad | sds1004x_bode/awgdrivers/fy6600.py:181-185 | after a positive load z is set, the amplitude written is the one asked for times (z + 50)/z |
| Fy6600.OffsetOnLoad | sds1004x_bode/awgdrivers/fy6600.py:208-209 | after a positive load z is set, the offset written is the one asked for times (z + 50)/z |
| Fy3200s.FY3200S.constructor | sds1004x_bode/awgdrivers/fy3200s.py:39-46 | both outputs off, 50 ohm loads, coefficients 1, no port |
| Fy3200s.FY3200S.Connect | sds1004x_bode/awgdrivers/fy3200s.py:48-49 | the port is open |
| Fy3200s.FY3200S.Disconnect | sds1004x_bode/awgdrivers/fy3200s.py:51-52 | closing a port never opened fails; otherwise the port is closed |
| Fy3200s.FY3200S.Write | sds1004x_bode/awgdrivers/fy3200s.py:57 | the line is written exactly when the port is open |
| Fy3200s.FY3200S.SendCommand | sds1004x_bode/awgdrivers/fy3200s.py:54-62 | the command goes out prefixed with b for channel 1 and d for channel 2, as routed, or the first write fails |
| Fy3200s.FY3200S.EnableOutput | sds1004x_bode/awgdrivers/fy3200s.py:75-103 | an unknown channel changes nothing; otherwise the flags are updated, then the one-argument send_command raises TypeError |
| Fy3200s.FY3200S.SetFrequency | sds1004x_bode/awgdrivers/fy3200s.py:105-119 | an unknown channel writes nothing; otherwise the frequency is sent to the channel |
| Fy3200s.FY3200S.SetPhase | sds1004x_bode/awgdrivers/fy3200s.py:121-132 | the wrapped phase is sent to channel 2 |
| Fy3200s.FY3200S.SetWaveType | sds1004x_bode/awgdrivers/fy3200s.py:134-147 | an unknown channel or a type outside WAVE_TYPES writes nothing; otherwise a sine is set |
| Fy3200s.FY3200S.SetAmplitue | sds1004x_bode/awgdrivers/fy3200s.py:149-165 | an unknown channel, None or a zero coefficient writes nothing; otherwise the amplitude divided by the coefficient is sent |
| Fy3200s.FY3200S.SetOffset | sds1004x_bode/awgdrivers/fy3200s.py:167-179 | the same for the offset |
| Fy3200s.FY3200S.SetLoadImpedance | sds1004x_bode/awgdrivers/fy3200s.py:181-202 | an unknown channel or None changes nothing; otherwise the load is stored in channel-1's slot, then its coefficient, unless that divides by zero |
| Fy3200s.FY3200S.Initialize | sds1004x_bode/awgdrivers/fy3200s.py:65-68 | the port is open and both flags are off, then enable_output raises TypeError |
| Fy3200s.FanOut | sds1004x_bode/awgdrivers/fy3200s.py:54-62 | channel 1 gets b, 2 gets d, 0 and None both with b first; a command goes out exactly for a valid channel, with its arguments unchanged |
| Fy3200s.PhaseUsesFrequencyMnemonic | sds1004x_bode/awgdrivers/fy3200s.py:121-132 | the phase leaves as one df command, the same mnemonic as channel 2's frequency, carrying a phase in [0, 360) |
| Fy3200s.AmplitudeOnLoad | sds1004x_bode/awgdrivers/fy3200s.py:160-165 | after a positive load z is set, the amplitude sent is the one asked for times (z + 50)/z |
| Fy3200s.OffsetOnLoad | sds1004x_bode/awgdrivers/fy3200s.py:177-179 | after a positive load z is set, the offset sent is the one asked for times (z + 50)/z |
| Bk4075.Coefficient | sds1004x_bode/awgdrivers/bk4075.py:217-220 | fails with ZeroDivision exactly for a zero load |
| Bk4075.BK4075.constructor | sds1004x_bode/awgdrivers/bk4075.py:52-57 | the port name and baud rate are kept; no port; no load, coefficient or output state yet |
| Bk4075.Create | sds1004x_bode/awgdrivers/bk4075.py:52-57 | a baud rate outside 2400, 4800, 9600 and 19200 raises ValueError; otherwise a fresh driver with that name and rate, an unopened port, nothing sent, and no load, coefficient or output state |
| Bk4075.BK4075.Connect | sds1004x_bode/awgdrivers/bk4075.py:59-60 | the port is open |
| Bk4075.BK4075.Disconnect | sds1004x_bode/awgdrivers/bk4075.py:62-63 | closing a port never opened fails; otherwise the port is closed |
| Bk4075.BK4075.SendCommand | sds1004x_bode/awgdrivers/bk4075.py:65-68 | the command is written exactly when the port is open |
| Bk4075.BK4075.EnableOutput | sds1004x_bode/awgdrivers/bk4075.py:85-102 | channels other than 0, 1 and None change nothing; otherwise the state is stored and the ON or OFF command written |
| Bk4075.BK4075.SetFrequency | sds1004x_bode/awgdrivers/bk4075.py:104-121 | an unknown channel writes nothing; otherwise the frequency command is written |
| Bk4075.BK4075.SetPhase | sds1004x_bode/awgdrivers/bk4075.py:123-127 | nothing is checked, stored or written |
| Bk4075.BK4075.SetWaveType | sds1004x_bode/awgdrivers/bk4075.py:129-148 | an unknown channel or a type outside WAVE_TYPES writes nothing; otherwise the type's function command is written |
| Bk4075.BK4075.SetAmplitue | sds1004x_bode/awgdrivers/bk4075.py:150-170 | an unknown channel, or a coefficient never set (AttributeError), writes nothing; otherwise the amplitude times the coefficient is written |
| Bk4075.BK4075.SetOffset | sds1004x_bode/awgdrivers/bk4075.py:172-191 | the same for the offset |
| Bk4075.BK4075.SetLoadImpedance | sds1004x_bode/awgdrivers/bk4075.py:193-220 | an unknown channel changes nothing; otherwise the load is stored, then its coefficient, unless a zero load divides by zero |
| Bk4075.BK4075.Initialize | sds1004x_bode/awgdrivers/bk4075.py:70-76 | the port is open, the 50 ohm load, coefficient 1 and output off are set, and the screen-on and output-off commands are written |
| Bk4075.LoadSeesRequested | sds1004x_bode/awgdrivers/bk4075.py:202-220 | multiplying by the coefficient makes the load see exactly the voltage asked for, for Hi-Z and every positive load; the coefficient at 50 ohms is 1 |
| Bk4075.WaveformCommandsDistinct | sds1004x_bode/awgdrivers/bk4075.py:29-34 | the four wave types map to four distinct function commands |
| Fygen.IndexOf | sds1004x_bode/awgdrivers/fy.py:94 | the position of the first occurrence |
| Fygen.FygenAWG.constructor | sds1004x_bode/awgdrivers/fy.py:28-38 | not connected, nothing written, the default retry limits, both channels Hi-Z |
| Fygen.FygenAWG.Connect | sds1004x_bode/awgdrivers/fy.py:40-57 | the port is connected, and a connected port is left alone |
| Fygen.FygenAWG.Disconnect | sds1004x_bode/awgdrivers/fy.py:59-63 | the port is not connected |
| Fygen.FygenAWG.Send | sds1004x_bode/awgdrivers/fy.py:175-194 | the lines written and replies consumed are those of the exchange, and the answer is its last reply stripped |
| Fygen.SentShape | sds1004x_bode/awgdrivers/fy.py:175-194 | one exchange writes the same line 1 to retries + 1 times, one reply read per line; an empty answer only once every resend is spent; a non-empty first reply ends it at once |
| Fygen.SilentSent | sds1004x_bode/awgdrivers/fy.py:188-192 | a silent generator gets the line retries + 1 times and answers empty |
| Fygen.FygenAWG.WriteAndReadBack | sds1004x_bode/awgdrivers/fy.py:218-219 | the setting's exchange, then the read-back's exchange, with the read-back's answer stripped |
| Fygen.AttemptOnce | sds1004x_bode/awgdrivers/fy.py:217-222 | one attempt is a write and a read-back, then stops on a match or goes on with one attempt fewer |
| Fygen.FygenAWG.Turn | sds1004x_bode/awgdrivers/fy.py:217-222 | one turn writes a setting and a read-back, the opening lines of the remaining attempts; on a match those attempts end there, otherwise the next k - 1 attempts follow |
| Fygen.FygenAWG.AttemptLoop | sds1004x_bode/awgdrivers/fy.py:217-222 | the loop writes exactly the lines of k attempts that stop at the first match, and reports whether one matched |
| Fygen.FygenAWG.RetryOn | sds1004x_bode/awgdrivers/fy.py:209-222 | a first read-back, then the attempts if it did not match, exactly as the polling function says |
| Fygen.FygenAWG.Retry | sds1004x_bode/awgdrivers/fy.py:196-230 | lines written, replies consumed and exception are those of the retry function |
| Fygen.FygenAWG.RetryBoth | sds1004x_bode/awgdrivers/fy.py:198-201 | channel 0 is channel 1 then channel 2 with plain equality, stopping at the first exception, as the retry function says |
| Fygen.FygenAWG.RetryChannel | sds1004x_bode/awgdrivers/fy.py:202-230 | channel 1 or 2 (letters M and F), an unknown channel or a closed port, as the retry function says |
| Fygen.AlreadySet | sds1004x_bode/awgdrivers/fy.py:213-215 | a first read-back that matches ends the call with only read-backs written |
| Fygen.SilentAttempts | sds1004x_bode/awgdrivers/fy.py:217-222 | against a silent generator, k attempts write k times 2 (n + 1) lines and never match |
| Fygen.SilentGenerator | sds1004x_bode/awgdrivers/fy.py:196-230 | a generator that never answers gets (n + 1) + attempts times 2 (n + 1) lines on channel 1 or 2, and the call ends in the NameError |
| Fygen.SilenceNeverConfirms | sds1004x_bode/awgdrivers/fy.py:72-152 | no setter accepts the empty reply of a timeout |
| Fygen.RetryOutcome | sds1004x_bode/awgdrivers/fy.py:196-230 | an unknown channel or a closed port fails before anything is written; otherwise the call matches or ends in the NameError once every attempt is spent |
| Fygen.ChannelZeroDropsMatcher | sds1004x_bode/awgdrivers/fy.py:198-201 | channel 0 compares both channels with plain equality whatever match_fn was given, channel 1 first |
| Fygen.HzOnlyMeaning | sds1004x_bode/awgdrivers/fy.py:93-97 | match_hz_only accepts exactly the expected text followed by a '.' and anything |
| Fygen.PaddedIntHasNoDot | sds1004x_bode/awgdrivers/fy.py:102-103 | "%0Nu" text holds no '.' |
| Fygen.FrequencyAnyFraction | sds1004x_bode/awgdrivers/fy.py:87-104 | the frequency is confirmed on its whole hertz, whatever fraction the generator reports |
| Fygen.FrequencyUnits | sds1004x_bode/awgdrivers/fy.py:85-104 | the micro-hertz written and the whole hertz expected back describe the same frequency |
| Fygen.FrequencyReadBack | sds1004x_bode/awgdrivers/fy.py:99-104 | the expected read-back parses to the whole hertz |
| Fygen.PhaseReadBack | sds1004x_bode/awgdrivers/fy.py:106-112 | the expected read-back parses to the millidegrees |
| Fygen.ScaledRound | sds1004x_bode/awgdrivers/fy.py:127-132 | round(x, n) scaled by 10^n is round(x * 10^n) |
| Fygen.AmplitudeReadBack | sds1004x_bode/awgdrivers/fy.py:127-132 | the expected read-back parses to the volts in tenths of a millivolt, rounded half away from zero |
| Fygen.OffsetReadBack | sds1004x_bode/awgdrivers/fy.py:145-152 | the expected read-back parses to the offset word |
| Fygen.OffsetWordTwosComplement | sds1004x_bode/awgdrivers/fy.py:142-147 | the offset word is the rounded millivolts in 32-bit two's complement |
| Fygen.ApplyLoadOnDivider | sds1004x_bode/awgdrivers/fy.py:161-167 | a finite non-zero stored load divides the voltage by the divider coefficient, so the load sees what was asked; Hi-Z, above 10 Mohm and zero leave it unchanged |
| Fygen.ApplyLoadChannels | sds1004x_bode/awgdrivers/fy.py:161-167 | a channel without an entry is refused, and a channel just given a load always has one |
| Fygen.FygenAWG.EnableOutput | sds1004x_bode/awgdrivers/fy.py:72-78 | the retry run of the N request, with read-back 255 for on and 0 for off |
| Fygen.FygenAWG.SetFrequency | sds1004x_bode/awgdrivers/fy.py:80-104 | the retry run of the F request, confirmed on whole hertz |
| Fygen.FygenAWG.SetPhase | sds1004x_bode/awgdrivers/fy.py:106-112 | the retry run of the P request, always on channel 2 |
| Fygen.FygenAWG.SetWaveType | sds1004x_bode/awgdrivers/fy.py:114-117 | the retry run of a sine, whatever type was asked for |
| Fygen.FygenAWG.SetAmplitue | sds1004x_bode/awgdrivers/fy.py:119-132 | a channel without a load entry is refused with nothing written; otherwise the retry run of the adjusted, rounded amplitude |
| Fygen.FygenAWG.SetOffset | sds1004x_bode/awgdrivers/fy.py:134-152 | a channel without a load entry is refused with nothing written; otherwise the retry run of the adjusted offset |
| Fygen.FygenAWG.SetLoadImpedance | sds1004x_bode/awgdrivers/fy.py:154-159 | the channel's entry becomes the load, or Hi-Z above 10 Mohm; any channel key is accepted |
| Fygen.FygenAWG.Initialize | sds1004x_bode/awgdrivers/fy.py:65-67 | connected, then the retry run switching both channels off |
| Factory.AwgFactory.constructor | sds1004x_bode/awg_factory.py:17-18 | the dictionary is empty |
| Factory.AwgFactory.AddAwg | sds1004x_bode/awg_factory.py:20-21 | the name maps to the class, and every other entry is kept |
| Factory.AwgFactory.GetClassByName | sds1004x_bode/awg_factory.py:23-24 | the class registered under the name, or KeyError exactly when it is absent |
| Factory.AwgFactory.AddAll | sds1004x_bode/awg_factory.py:35-36 | the dictionary after registering each driver under its SHORT_NAME in turn |
| Factory.ModuleFactory | sds1004x_bode/awg_factory.py:26-36 | a fresh factory holding the registered drivers |
| Factory.AddThenLookup | sds1004x_bode/awg_factory.py:20-24 | after add_awg(n, c), looking up n gives c and every other name looks up as before |
| Factory.AddOverwrites | sds1004x_bode/awg_factory.py:21 | adding a name twice keeps only the second class |
| Factory.RegisteredNames | sds1004x_bode/awg_factory.py:35-36 | a name is present after registering exactly when it was before or some driver carries it |
| Factory.RegisteredLast | sds1004x_bode/awg_factory.py:35-36 | a name maps to the last driver registered under it |
| Factory.RegisteredUntouched | sds1004x_bode/awg_factory.py:35-36 | a name no registered driver carries keeps its old class |
| Factory.ModuleRegistry | sds1004x_bode/awg_factory.py:27-36 | the registry is exactly dummy, jds6600, bk4075, fy6600 and fy, each with its driver; the FY3200S and PS3000A drivers cannot be looked up |
| Factory.RegistryFindsEachDriver | sds1004x_bode/awg_factory.py:28-36 | each registered driver is found under its own SHORT_NAME |

## Left out

- Sockets: `accept`, `recv`, `send`, `close`, `listen` and `setsockopt` are replaced by the buffers received and the replies sent. The 128- and 255-byte receive sizes are not modelled: a request is taken as one whole buffer.
- Console output (`print`, `debug`) and `sys.stderr` are not modelled.
- `AwgServer.__init__`'s type checks, `start`, `create_socket`, `print_as_hex`, the socket-closing helpers and `__del__` are not modelled. They only configure or tear down I/O.
- `bytes.decode()` of non-ASCII payloads: payload bytes are read as characters one for one, which is exact for ASCII text. UTF-8 decoding errors are not modelled.
- float() of SCPI argument text: the calls carry the argument text, and the ValueError float() raises on bad text is not modelled.
- int() of text with surrounding whitespace or underscores: ParseInt accepts only an optional sign followed by digits.
- Float formatting (`"%.2f"`, `"%.3f"`, `"%.10f"`, `"%s"` of a float): a `Value` records the number and the format instead of the text. The digit strings of "%u" and "%0Nu" are modelled exactly.
- IEEE 754 doubles: voltages, impedances and frequencies are exact reals. Rounding error in `z / (z + R_IN)` and in the scaling is not modelled.
- Serial I/O: `serial.Serial` cannot fail to open in the model. The end-of-line bytes, `sleep`, `flush`, the buffer resets, the 256-byte read size, the read timeout and the baud rate fy.py passes to `serial.Serial` (always 115200) are not modelled. A timeout is the empty reply of an exhausted reply queue.
- `get_id` of every driver is not modelled. Nothing in the bridge calls it.
- The ps3000a, dummy and base drivers are not modelled, beyond their names in the registry. `bode.py`, the command-line entry point, is not modelled.
- `main_loop` after its infinite loop is not modelled. The lines after `while True` can never run.
- Fygen.FygenAWG.Retry: the retry limits are the field `limits`, fixed to `Defaults` (5 resends, 2 attempts) by the constructor. The lemmas hold for any limits.
- Fygen.FygenAWG.AttemptLoop: `for _ in range(RETRY_COUNT)` with its early `return` is written as a `while` loop that stops at the first match.
- Fygen.FygenAWG.SetLoadImpedance: `HI_Z` is a separate impedance value. It is stored as Hi-Z, which is what comparing it above 10 Mohm gives.
- Session.ProcessLxiRequests: the generator's driver is a `Driver`, a fixed set of calls on which it raises, given with the run rather than derived from the driver classes. A fault that depends on the driver's earlier calls or on the generator's replies (fy's NameError after exhausted retries, BK4075's AttributeError before a load is set) is covered only by choosing the predicate for that run.
- Jds6600.JDS6600.SetFrequency: the `%.2f` text without its point is kept as a `Digits` value rather than spelled out.
