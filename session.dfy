/**
 * The loops of awg_server.py: process_lxi_requests serves one VXI-11 link,
 * main_loop alternates RPCBIND probes and links forever. Sockets are
 * replaced by the buffers recv returns, in order, and by the replies send
 * is given; the generator is replaced by the calls the SCPI parser makes
 * and by a Driver that says which of them raise.
 */
module Session {
  import opened Wrappers
  import opened ByteCodec
  import opened PyText
  import opened RpcFrame
  import opened Vxi11
  import opened ScpiParser
  import opened ScpiLines

  /**
   * Why serving a link raised: a buffer too short to parse, a reply with
   * `resp` never bound, a parser exception, or an exception from the
   * generator's driver on a call (UnknownChannelError, fy's NameError, ...).
   */
  datatype Crash = ShortRequest | ReplyUnbound | CommandFailed(error: ParseError) | DriverFailed(call: Call)

  /** The generator's driver, as the calls on which it raises. */
  type Driver = Call -> bool

  /** The driver raises on none of calls. */
  predicate AcceptsAll(driver: Driver, calls: seq<Call>)
  {
    forall c <- calls :: !driver(c)
  }

  /** The index of the first call the driver raises on, or |calls| when it raises on none. */
  function FirstRaise(calls: seq<Call>, driver: Driver): (k: nat)
    ensures k <= |calls|
    ensures forall j :: 0 <= j < k ==> !driver(calls[j])
    ensures k < |calls| ==> driver(calls[k])
    ensures k == |calls| <==> AcceptsAll(driver, calls)
  {
    if |calls| == 0 then 0
    else if driver(calls[0]) then 0
    else 1 + FirstRaise(calls[1..], driver)
  }

  /** How process_lxi_requests left its loop, or Waiting when it is still blocked in recv. */
  datatype LinkEnd = Destroyed | Refused(status: Status) | Crashed(crash: Crash) | Waiting

  /** The replies sent on the link, the calls made on the generator, and how the loop ended. */
  datatype LinkResult = LinkResult(replies: seq<Bytes>, calls: seq<Call>, end: LinkEnd)

  function Preceded(replies: seq<Bytes>, calls: seq<Call>, r: LinkResult): LinkResult
  {
    LinkResult(replies + r.replies, calls + r.calls, r.end)
  }

  /** What serving one received buffer does: nothing, answer and go on, or leave the loop. */
  datatype Step =
    | Skip                                                    // an empty buffer
    | Answer(reply: Bytes, calls: seq<Call>, resp: Option<Bytes>)
    | Stop(calls: seq<Call>, end: LinkEnd)

  /**
   * One pass of the loop of process_lxi_requests on the buffer rx, with resp
   * the payload the last CREATE_LINK or DEVICE_READ bound (None before
   * either). NOT_VXI11 and UNKNOWN_COMMAND leave the loop without a reply;
   * DEVICE_WRITE runs the parser, whose calls stop at the first one the
   * driver raises on, and then answers with whatever resp holds;
   * DESTROY_LINK leaves the loop.
   */
  function LinkStep(rx: Bytes, resp: Option<Bytes>, driver: Driver): Step
  {
    if |rx| == 0 then Skip
    else
      match ParseLxiRequest(rx)
      case None => Stop([], Crashed(ShortRequest))
      case Some(req) =>
        if req.status != Ok then Stop([], Refused(req.status))
        else if req.procedure == Some(CreateLink) then
          Answer(GenerateRespData(rx, CreateLinkResponse()), [], Some(CreateLinkResponse()))
        else if req.procedure == Some(DeviceWrite) then WriteStep(rx, req.command.value, resp, driver)
        else if req.procedure == Some(DeviceRead) then
          Answer(GenerateRespData(rx, IdnResponse(AwgIdString())), [], Some(IdnResponse(AwgIdString())))
        else Stop([], Destroyed)
  }

  /**
   * DEVICE_WRITE carrying command: the parser's calls up to the first one
   * the driver raises on, else the parser's exception, else the reply with
   * the bound payload, and UnboundLocalError when none is bound.
   */
  function WriteStep(rx: Bytes, command: string, resp: Option<Bytes>, driver: Driver): Step
  {
    var t := LineTrace(command);
    var k := FirstRaise(t.calls, driver);
    if k < |t.calls| then Stop(t.calls[..k + 1], Crashed(DriverFailed(t.calls[k])))
    else if t.error.Some? then Stop(t.calls, Crashed(CommandFailed(t.error.value)))
    else if resp.None? then Stop(t.calls, Crashed(ReplyUnbound))
    else Answer(GenerateRespData(rx, resp.value), t.calls, resp)
  }

  /** The loop of process_lxi_requests over the buffers recv returns, in order. */
  function LinkRun(inbox: seq<Bytes>, resp: Option<Bytes>, driver: Driver): LinkResult
    decreases |inbox|
  {
    if |inbox| == 0 then LinkResult([], [], Waiting)
    else
      match LinkStep(inbox[0], resp, driver)
      case Skip => LinkRun(inbox[1..], resp, driver)
      case Answer(reply, calls, next) => Preceded([reply], calls, LinkRun(inbox[1..], next, driver))
      case Stop(calls, end) => LinkResult([], calls, end)
  }

  /** The body of the loop of process_lxi_requests for one received buffer. */
  method ServeBuffer(rx: Bytes, resp: Option<Bytes>, driver: Driver) returns (step: Step)
    ensures step == LinkStep(rx, resp, driver)
  {
    if |rx| == 0 {
      return Skip;
    }
    var parsed := ParseLxiRequest(rx);
    if parsed.None? {
      return Stop([], Crashed(ShortRequest));
    }
    var req := parsed.value;
    if req.status != Ok {
      return Stop([], Refused(req.status));
    }
    if req.procedure == Some(CreateLink) {
      var payload := CreateLinkResponse();
      step := Answer(GenerateRespData(rx, payload), [], Some(payload));
    } else if req.procedure == Some(DeviceWrite) {
      step := ServeWrite(rx, req.command.value, resp, driver);
    } else if req.procedure == Some(DeviceRead) {
      var payload := IdnResponse(AwgIdString());
      step := Answer(GenerateRespData(rx, payload), [], Some(payload));
    } else {
      step := Stop([], Destroyed);
    }
  }

  /** The DEVICE_WRITE branch of the loop body: parse_scpi_command driving the generator, then the reply. */
  method ServeWrite(rx: Bytes, command: string, resp: Option<Bytes>, driver: Driver) returns (step: Step)
    ensures step == WriteStep(rx, command, resp, driver)
  {
    var made, err := ParseScpiCommand(command);
    var k := FirstRaise(made, driver);
    if k < |made| {
      return Stop(made[..k + 1], Crashed(DriverFailed(made[k])));
    }
    if err.Some? {
      return Stop(made, Crashed(CommandFailed(err.value)));
    }
    if resp.None? {
      return Stop(made, Crashed(ReplyUnbound));
    }
    step := Answer(GenerateRespData(rx, resp.value), made, resp);
  }

  /** The run from buffer i on is the step on buffer i followed by the run from buffer i + 1. */
  lemma RunFrom(inbox: seq<Bytes>, i: nat, resp: Option<Bytes>, driver: Driver)
    requires i < |inbox|
    ensures LinkRun(inbox[i..], resp, driver) == match LinkStep(inbox[i], resp, driver)
      case Skip => LinkRun(inbox[i + 1..], resp, driver)
      case Answer(reply, calls, next) => Preceded([reply], calls, LinkRun(inbox[i + 1..], next, driver))
      case Stop(calls, end) => LinkResult([], calls, end)
  {
    assert inbox[i..][1..] == inbox[i + 1..];
  }

  /** Output produced in two goes. */
  lemma PrecededTwice(r1: seq<Bytes>, c1: seq<Call>, r2: seq<Bytes>, c2: seq<Call>, r: LinkResult)
    ensures Preceded(r1, c1, Preceded(r2, c2, r)) == Preceded(r1 + r2, c1 + c2, r)
  {
    assert r1 + (r2 + r.replies) == r1 + r2 + r.replies;
    assert c1 + (c2 + r.calls) == c1 + c2 + r.calls;
  }

  /** process_lxi_requests on one accepted connection; `resp` starts unbound. */
  method ProcessLxiRequests(inbox: seq<Bytes>, driver: Driver) returns (replies: seq<Bytes>, calls: seq<Call>, end: LinkEnd)
    ensures LinkResult(replies, calls, end) == LinkRun(inbox, None, driver)
  {
    var resp: Option<Bytes> := None;
    replies, calls, end := [], [], Waiting;
    var i := 0;
    while i < |inbox|
      invariant 0 <= i <= |inbox|
      invariant LinkRun(inbox, None, driver) == Preceded(replies, calls, LinkRun(inbox[i..], resp, driver))
      decreases |inbox| - i
    {
      var step := ServeBuffer(inbox[i], resp, driver);
      RunFrom(inbox, i, resp, driver);
      match step {
        case Skip =>
        case Answer(reply, made, next) =>
          PrecededTwice(replies, calls, [reply], made, LinkRun(inbox[i + 1..], next, driver));
          replies, calls, resp := replies + [reply], calls + made, next;
        case Stop(made, stop) =>
          assert replies + [] == replies;
          calls, end := calls + made, stop;
          break;
      }
      i := i + 1;
    }
    if i == |inbox| {
      assert replies + [] == replies && calls + [] == calls;
    }
  }

  // ---------------------------------------------------------------------
  // Properties of one link.
  // ---------------------------------------------------------------------

  /** Once the loop has been left, later buffers are never read. */
  lemma {:induction false} StopsForGood(a: seq<Bytes>, b: seq<Bytes>, resp: Option<Bytes>, driver: Driver)
    requires LinkRun(a, resp, driver).end != Waiting
    ensures LinkRun(a + b, resp, driver) == LinkRun(a, resp, driver)
    decreases |a|
  {
    assert (a + b)[1..] == a[1..] + b;
    match LinkStep(a[0], resp, driver) {
      case Skip => StopsForGood(a[1..], b, resp, driver);
      case Answer(_, _, next) => StopsForGood(a[1..], b, next, driver);
      case Stop(_, _) =>
    }
  }

  /** Empty receives anywhere on the link change nothing. */
  lemma {:induction false} EmptyReceivesIgnored(a: seq<Bytes>, b: seq<Bytes>, resp: Option<Bytes>, driver: Driver)
    ensures LinkRun(a + [[]] + b, resp, driver) == LinkRun(a + b, resp, driver)
    decreases |a|
  {
    if |a| == 0 {
      assert a + [[]] + b == [[]] + b && ([[]] + b)[1..] == b && a + b == b;
    } else {
      assert (a + [[]] + b)[1..] == a[1..] + [[]] + b;
      assert (a + b)[1..] == a[1..] + b;
      match LinkStep(a[0], resp, driver) {
        case Skip => EmptyReceivesIgnored(a[1..], b, resp, driver);
        case Answer(_, _, next) => EmptyReceivesIgnored(a[1..], b, next, driver);
        case Stop(_, _) =>
      }
    }
  }

  /** A payload process_lxi_requests can bind to `resp`. */
  predicate LinkPayload(p: Bytes)
  {
    p == CreateLinkResponse() || p == IdnResponse(AwgIdString())
  }

  /** reply is the framed answer to the request rx, carrying one of the two payloads. */
  predicate ReplyTo(reply: Bytes, rx: Bytes)
  {
    && |rx| >= 0x1C
    && (reply == GenerateRespData(rx, CreateLinkResponse()) || reply == GenerateRespData(rx, IdnResponse(AwgIdString())))
  }

  /** The request answered by reply is one of inbox. */
  ghost predicate AnswersOneOf(reply: Bytes, inbox: seq<Bytes>)
  {
    exists j :: 0 <= j < |inbox| && ReplyTo(reply, inbox[j])
  }

  /** An answer to one of inbox[1..] is an answer to one of inbox. */
  lemma AnswerShifts(reply: Bytes, inbox: seq<Bytes>)
    requires |inbox| > 0 && AnswersOneOf(reply, inbox[1..])
    ensures AnswersOneOf(reply, inbox)
  {
    var j :| 0 <= j < |inbox[1..]| && ReplyTo(reply, inbox[1..][j]);
    assert inbox[1..][j] == inbox[j + 1];
  }

  /**
   * Every reply answers one of the received requests with the CREATE_LINK
   * or the identification payload, whatever procedure it answers.
   */
  lemma {:induction false} RepliesAnswerRequests(inbox: seq<Bytes>, resp: Option<Bytes>, driver: Driver)
    requires resp.Some? ==> LinkPayload(resp.value)
    ensures forall reply :: reply in LinkRun(inbox, resp, driver).replies ==> AnswersOneOf(reply, inbox)
    decreases |inbox|
  {
    if |inbox| > 0 {
      var rest := inbox[1..];
      match LinkStep(inbox[0], resp, driver) {
        case Skip =>
          RepliesAnswerRequests(rest, resp, driver);
          forall reply | reply in LinkRun(rest, resp, driver).replies
            ensures AnswersOneOf(reply, inbox)
          {
            AnswerShifts(reply, inbox);
          }
        case Answer(first, _, next) =>
          AnswerStep(inbox[0], resp, driver);
          RepliesAnswerRequests(rest, next, driver);
          forall reply | reply in LinkRun(rest, next, driver).replies
            ensures AnswersOneOf(reply, inbox)
          {
            AnswerShifts(reply, inbox);
          }
          assert ReplyTo(first, inbox[0]);
          assert LinkRun(inbox, resp, driver).replies == [first] + LinkRun(rest, next, driver).replies;
        case Stop(_, _) =>
      }
    }
  }

  /** A step that answers sends one of the two payloads to the request it parsed, and binds one of them. */
  lemma AnswerStep(rx: Bytes, resp: Option<Bytes>, driver: Driver)
    requires resp.Some? ==> LinkPayload(resp.value)
    requires LinkStep(rx, resp, driver).Answer?
    ensures ReplyTo(LinkStep(rx, resp, driver).reply, rx)
    ensures LinkStep(rx, resp, driver).resp.Some? && LinkPayload(LinkStep(rx, resp, driver).resp.value)
  {
    assert WordAt(rx, 0x18).Some?;
  }

  /** A reply echoes its request's xid and carries a 16- or 36-byte payload after the 28-byte header. */
  lemma ReplyEchoesXid(reply: Bytes, rx: Bytes)
    requires ReplyTo(reply, rx)
    ensures reply[4..8] == rx[4..8]
    ensures reply[28..] == CreateLinkResponse() || reply[28..] == IdnResponse(AwgIdString())
  {
    if reply == GenerateRespData(rx, CreateLinkResponse()) {
      RespDataLayout(rx, CreateLinkResponse());
    } else {
      RespDataLayout(rx, IdnResponse(AwgIdString()));
    }
  }

  /**
   * A DEVICE_WRITE that opens a link, before any CREATE_LINK or DEVICE_READ
   * bound `resp`, makes its calls and then raises instead of answering.
   */
  lemma FirstWriteUnanswered(xid: nat, data: Bytes, rest: seq<Bytes>, driver: Driver)
    requires xid < Word && |data| < 0x1000_0000
    requires LineTrace(Strip(Text(data))).error.None? && AcceptsAll(driver, LineTrace(Strip(Text(data))).calls)
    ensures LinkRun([DeviceWriteCall(xid, data)] + rest, None, driver)
         == LinkResult([], LineTrace(Strip(Text(data))).calls, Crashed(ReplyUnbound))
  {
    ParseDeviceWrite(xid, data);
    var inbox := [DeviceWriteCall(xid, data)] + rest;
    assert inbox[0] == DeviceWriteCall(xid, data);
    assert LinkStep(inbox[0], None, driver) == Stop(LineTrace(Strip(Text(data))).calls, Crashed(ReplyUnbound));
  }

  /**
   * A DEVICE_WRITE whose line makes a call the driver raises on: the calls
   * up to and including that one are made, then the exception leaves the
   * loop, whatever the line holds after it and whatever `resp` holds.
   */
  lemma DriverFaultStep(xid: nat, data: Bytes, resp: Option<Bytes>, driver: Driver)
    requires xid < Word && |data| < 0x1000_0000
    requires !AcceptsAll(driver, LineTrace(Strip(Text(data))).calls)
    ensures var calls := LineTrace(Strip(Text(data))).calls;
      var k := FirstRaise(calls, driver);
      LinkStep(DeviceWriteCall(xid, data), resp, driver) == Stop(calls[..k + 1], Crashed(DriverFailed(calls[k])))
  {
    ParseDeviceWrite(xid, data);
  }

  /** A run that reaches such a DEVICE_WRITE ends there, with no reply to it. */
  lemma DriverFaultEndsLink(xid: nat, data: Bytes, rest: seq<Bytes>, resp: Option<Bytes>, driver: Driver)
    requires xid < Word && |data| < 0x1000_0000
    requires !AcceptsAll(driver, LineTrace(Strip(Text(data))).calls)
    ensures var calls := LineTrace(Strip(Text(data))).calls;
      var k := FirstRaise(calls, driver);
      LinkRun([DeviceWriteCall(xid, data)] + rest, resp, driver) == LinkResult([], calls[..k + 1], Crashed(DriverFailed(calls[k])))
  {
    var calls := LineTrace(Strip(Text(data))).calls;
    var k := FirstRaise(calls, driver);
    var inbox := [DeviceWriteCall(xid, data)] + rest;
    DriverFaultStep(xid, data, resp, driver);
    StoppedAt(inbox, 0, resp, calls[..k + 1], Crashed(DriverFailed(calls[k])), driver);
    assert inbox[0..] == inbox;
  }

  /**
   * A sweep step "C<d>:BSWV FRQ,<f>" on a channel the driver rejects, right
   * after CREATE_LINK: the CREATE_LINK reply, the one set_frequency call,
   * and the link ends in the driver's exception instead of a reply.
   */
  lemma SweepStepRejected(x0: nat, device: Bytes, x1: nat, data: Bytes, d: char, f: string, rest: seq<Bytes>, driver: Driver)
    requires x0 < Word && x1 < Word && |device| < 0x1000_0000 && |data| < 0x1000_0000
    requires IsDigit(d) && Token(f) && f != [] && f[|f| - 1] != '?'
    requires Strip(Text(data)) == "C" + [d] + ":" + Join(["BSWV " + Join(["FRQ", f], ',')], ';')
    requires driver(SetFrequency(DigitValue(d), f))
    ensures var call := SetFrequency(DigitValue(d), f);
      LinkRun([CreateLinkCall(x0, device), DeviceWriteCall(x1, data)] + rest, None, driver)
      == LinkResult([GenerateRespData(CreateLinkCall(x0, device), CreateLinkResponse())], [call], Crashed(DriverFailed(call)))
  {
    SweepStep(d, f);
    SingleCallRejected(x0, device, x1, data, SetFrequency(DigitValue(d), f), rest, driver);
  }

  /** After CREATE_LINK, a DEVICE_WRITE whose line makes one call, which the driver raises on. */
  lemma SingleCallRejected(x0: nat, device: Bytes, x1: nat, data: Bytes, call: Call, rest: seq<Bytes>, driver: Driver)
    requires x0 < Word && x1 < Word && |device| < 0x1000_0000 && |data| < 0x1000_0000
    requires LineTrace(Strip(Text(data))).calls == [call] && driver(call)
    ensures LinkRun([CreateLinkCall(x0, device), DeviceWriteCall(x1, data)] + rest, None, driver)
         == LinkResult([GenerateRespData(CreateLinkCall(x0, device), CreateLinkResponse())], [call], Crashed(DriverFailed(call)))
  {
    OneCallRaises([call], call, driver);
    var tail := [DeviceWriteCall(x1, data)] + rest;
    DriverFaultEndsLink(x1, data, rest, Some(CreateLinkResponse()), driver);
    CreateLinkFirst(x0, device, None, tail, driver);
    TwoFirst(CreateLinkCall(x0, device), DeviceWriteCall(x1, data), rest);
  }

  lemma OneCallRaises(calls: seq<Call>, call: Call, driver: Driver)
    requires calls == [call] && driver(call)
    ensures !AcceptsAll(driver, calls) && FirstRaise(calls, driver) == 0 && calls[..1] == [call]
  {
    assert calls[0] == call;
  }

  lemma TwoFirst(a: Bytes, b: Bytes, rest: seq<Bytes>)
    ensures [a] + ([b] + rest) == [a, b] + rest
  {
  }

  /** CREATE_LINK is answered with its payload, which it binds. */
  lemma CreateLinkStep(xid: nat, device: Bytes, resp: Option<Bytes>, driver: Driver)
    requires xid < Word && |device| < 0x1000_0000
    ensures var rx := CreateLinkCall(xid, device);
      LinkStep(rx, resp, driver) == Answer(GenerateRespData(rx, CreateLinkResponse()), [], Some(CreateLinkResponse()))
  {
    ParseCreateLink(xid, device);
  }

  /** A DEVICE_WRITE whose line raises nothing makes its calls and is answered with the bound payload. */
  lemma DeviceWriteStep(xid: nat, data: Bytes, payload: Bytes, driver: Driver)
    requires xid < Word && |data| < 0x1000_0000
    requires LineTrace(Strip(Text(data))).error.None? && AcceptsAll(driver, LineTrace(Strip(Text(data))).calls)
    ensures var rx := DeviceWriteCall(xid, data);
      LinkStep(rx, Some(payload), driver) == Answer(GenerateRespData(rx, payload), LineTrace(Strip(Text(data))).calls, Some(payload))
  {
    ParseDeviceWrite(xid, data);
  }

  /** DEVICE_READ is answered with the identification, which it binds; DESTROY_LINK leaves the loop. */
  lemma ReadAndDestroySteps(xid: nat, resp: Option<Bytes>, driver: Driver)
    requires xid < Word
    ensures var rx := DeviceReadCall(xid);
      LinkStep(rx, resp, driver) == Answer(GenerateRespData(rx, IdnResponse(AwgIdString())), [], Some(IdnResponse(AwgIdString())))
    ensures LinkStep(DestroyLinkCall(xid), resp, driver) == Stop([], Destroyed)
  {
    ParseReadAndDestroy(xid);
  }

  /** A buffer that is answered: its reply and calls come first, then the run from the next buffer. */
  lemma AnsweredAt(inbox: seq<Bytes>, i: nat, resp: Option<Bytes>, reply: Bytes, calls: seq<Call>, next: Option<Bytes>, driver: Driver)
    requires i < |inbox| && LinkStep(inbox[i], resp, driver) == Answer(reply, calls, next)
    ensures LinkRun(inbox[i..], resp, driver) == Preceded([reply], calls, LinkRun(inbox[i + 1..], next, driver))
  {
    RunFrom(inbox, i, resp, driver);
  }

  /** A buffer that leaves the loop ends the run there. */
  lemma StoppedAt(inbox: seq<Bytes>, i: nat, resp: Option<Bytes>, calls: seq<Call>, end: LinkEnd, driver: Driver)
    requires i < |inbox| && LinkStep(inbox[i], resp, driver) == Stop(calls, end)
    ensures LinkRun(inbox[i..], resp, driver) == LinkResult([], calls, end)
  {
    RunFrom(inbox, i, resp, driver);
  }

  /** A run that starts with CREATE_LINK: its answer, then the rest with the payload bound. */
  lemma CreateLinkFirst(x0: nat, device: Bytes, resp: Option<Bytes>, tail: seq<Bytes>, driver: Driver)
    requires x0 < Word && |device| < 0x1000_0000
    ensures LinkRun([CreateLinkCall(x0, device)] + tail, resp, driver)
         == Preceded([GenerateRespData(CreateLinkCall(x0, device), CreateLinkResponse())], [], LinkRun(tail, Some(CreateLinkResponse()), driver))
  {
    var inbox := [CreateLinkCall(x0, device)] + tail;
    CreateLinkStep(x0, device, resp, driver);
    AnsweredAt(inbox, 0, resp, GenerateRespData(inbox[0], CreateLinkResponse()), [], Some(CreateLinkResponse()), driver);
    assert inbox[0..] == inbox;
    assert inbox[1..] == tail;
  }

  /** A run that starts with a DEVICE_WRITE raising nothing, once a payload is bound: its calls and answer, then the rest. */
  lemma DeviceWriteFirst(x1: nat, data: Bytes, payload: Bytes, tail: seq<Bytes>, driver: Driver)
    requires x1 < Word && |data| < 0x1000_0000
    requires LineTrace(Strip(Text(data))).error.None? && AcceptsAll(driver, LineTrace(Strip(Text(data))).calls)
    ensures LinkRun([DeviceWriteCall(x1, data)] + tail, Some(payload), driver)
         == Preceded([GenerateRespData(DeviceWriteCall(x1, data), payload)], LineTrace(Strip(Text(data))).calls, LinkRun(tail, Some(payload), driver))
  {
    var inbox := [DeviceWriteCall(x1, data)] + tail;
    DeviceWriteStep(x1, data, payload, driver);
    AnsweredAt(inbox, 0, Some(payload), GenerateRespData(inbox[0], payload), LineTrace(Strip(Text(data))).calls, Some(payload), driver);
    assert inbox[0..] == inbox;
    assert inbox[1..] == tail;
  }

  /** A run that starts with DEVICE_READ then DESTROY_LINK: the identification, then the end of the link. */
  lemma ReadThenDestroy(x2: nat, x3: nat, rest: seq<Bytes>, link: Option<Bytes>, driver: Driver)
    requires x2 < Word && x3 < Word
    ensures LinkRun([DeviceReadCall(x2), DestroyLinkCall(x3)] + rest, link, driver)
         == LinkResult([GenerateRespData(DeviceReadCall(x2), IdnResponse(AwgIdString()))], [], Destroyed)
  {
    var idn := Some(IdnResponse(AwgIdString()));
    ReadAndDestroySteps(x2, link, driver);
    ReadAndDestroySteps(x3, idn, driver);
    AnswerThenStop(DeviceReadCall(x2), DestroyLinkCall(x3), rest, link,
                   GenerateRespData(DeviceReadCall(x2), idn.value), idn, Destroyed, driver);
  }

  /** A buffer answered, then one that ends the link: one reply, no calls. */
  lemma AnswerThenStop(b0: Bytes, b1: Bytes, rest: seq<Bytes>, resp: Option<Bytes>, reply: Bytes, next: Option<Bytes>, end: LinkEnd, driver: Driver)
    requires LinkStep(b0, resp, driver) == Answer(reply, [], next)
    requires LinkStep(b1, next, driver) == Stop([], end)
    ensures LinkRun([b0, b1] + rest, resp, driver) == LinkResult([reply], [], end)
  {
    var inbox := [b0, b1] + rest;
    AnsweredAt(inbox, 0, resp, reply, [], next, driver);
    StoppedAt(inbox, 1, next, [], end, driver);
    assert inbox[0..] == inbox;
  }

  /**
   * The exchange of one sweep setting: CREATE_LINK, one DEVICE_WRITE, a
   * DEVICE_READ, DESTROY_LINK. The write is answered with the CREATE_LINK
   * payload bound before it, the read with the identification; the
   * buffers after DESTROY_LINK are never read.
   */
  lemma OscilloscopeSession(x0: nat, device: Bytes, x1: nat, data: Bytes, x2: nat, x3: nat, rest: seq<Bytes>, driver: Driver)
    requires x0 < Word && x1 < Word && x2 < Word && x3 < Word
    requires |device| < 0x1000_0000 && |data| < 0x1000_0000
    requires LineTrace(Strip(Text(data))).error.None? && AcceptsAll(driver, LineTrace(Strip(Text(data))).calls)
    ensures LinkRun([CreateLinkCall(x0, device), DeviceWriteCall(x1, data), DeviceReadCall(x2), DestroyLinkCall(x3)] + rest, None, driver)
         == LinkResult([GenerateRespData(CreateLinkCall(x0, device), CreateLinkResponse()),
                        GenerateRespData(DeviceWriteCall(x1, data), CreateLinkResponse()),
                        GenerateRespData(DeviceReadCall(x2), IdnResponse(AwgIdString()))],
                       LineTrace(Strip(Text(data))).calls, Destroyed)
  {
    var tail2 := [DeviceReadCall(x2), DestroyLinkCall(x3)] + rest;
    var tail1 := [DeviceWriteCall(x1, data)] + tail2;
    FourFirst(CreateLinkCall(x0, device), DeviceWriteCall(x1, data), DeviceReadCall(x2), DestroyLinkCall(x3), rest);
    CreateLinkFirst(x0, device, None, tail1, driver);
    DeviceWriteFirst(x1, data, CreateLinkResponse(), tail2, driver);
    ReadThenDestroy(x2, x3, rest, Some(CreateLinkResponse()), driver);
    ThreeReplies(GenerateRespData(CreateLinkCall(x0, device), CreateLinkResponse()),
                 GenerateRespData(DeviceWriteCall(x1, data), CreateLinkResponse()),
                 GenerateRespData(DeviceReadCall(x2), IdnResponse(AwgIdString())),
                 LineTrace(Strip(Text(data))).calls, Destroyed);
  }

  lemma FourFirst(a: Bytes, b: Bytes, c: Bytes, d: Bytes, rest: seq<Bytes>)
    ensures [a] + ([b] + ([c, d] + rest)) == [a, b, c, d] + rest
  {
  }

  lemma ThreeReplies(r1: Bytes, r2: Bytes, r3: Bytes, calls: seq<Call>, end: LinkEnd)
    ensures Preceded([r1], [], Preceded([r2], calls, LinkResult([r3], [], end))) == LinkResult([r1, r2, r3], calls, end)
  {
    assert [] + (calls + []) == calls;
  }

  // ---------------------------------------------------------------------
  // main_loop: an RPCBIND probe, then a link when the probe returned OK.
  // ---------------------------------------------------------------------

  /** Where main_loop stopped: an exception ended the server, or it is blocked in accept or recv. */
  datatype ServerEnd = ProbeCrashed | LinkCrashed(crash: Crash) | AwaitingProbe | AwaitingLink | InLink

  /** The GETPORT replies, the results of the links served in order, and where the loop stopped. */
  datatype ServerResult = ServerResult(bindReplies: seq<Bytes>, served: seq<LinkResult>, end: ServerEnd)

  function Then(bind: seq<Bytes>, served: seq<LinkResult>, r: ServerResult): ServerResult
  {
    ServerResult(bind + r.bindReplies, served + r.served, r.end)
  }

  /** What process_rpcbind_request makes of each probe in turn. */
  function Probed(probes: seq<Bytes>, vxi11Port: int): (os: seq<BindOutcome>)
    ensures |os| == |probes|
    decreases |probes|
  {
    if |probes| == 0 then [] else [ProcessRpcbindRequest(probes[0], vxi11Port)] + Probed(probes[1..], vxi11Port)
  }

  /** The k-th outcome is process_rpcbind_request on the k-th probe. */
  lemma {:induction false} ProbedAt(probes: seq<Bytes>, vxi11Port: int, k: nat)
    requires k < |probes|
    ensures Probed(probes, vxi11Port)[k] == ProcessRpcbindRequest(probes[k], vxi11Port)
    decreases k
  {
    if k > 0 {
      ProbedAt(probes[1..], vxi11Port, k - 1);
    }
  }

  /** What process_lxi_requests makes of each link in turn; `resp` starts unbound on every link. */
  function LinkResults(links: seq<seq<Bytes>>, driver: Driver): (rs: seq<LinkResult>)
    ensures |rs| == |links|
    decreases |links|
  {
    if |links| == 0 then [] else [LinkRun(links[0], None, driver)] + LinkResults(links[1..], driver)
  }

  /** The k-th result is process_lxi_requests on the k-th connection, from an unbound payload. */
  lemma {:induction false} LinkResultsAt(links: seq<seq<Bytes>>, driver: Driver, k: nat)
    requires k < |links|
    ensures LinkResults(links, driver)[k] == LinkRun(links[k], None, driver)
    decreases k
  {
    if k > 0 {
      LinkResultsAt(links[1..], driver, k - 1);
    }
  }

  /** The bytes sent back to a probe. */
  function BindReply(outcome: BindOutcome): seq<Bytes>
  {
    if outcome.Bound? && outcome.sent.Some? then [outcome.sent.value] else []
  }

  /**
   * What one pass of main_loop adds: the GETPORT reply, the link served (if
   * any), where the loop stops (None when it goes on), and how many links
   * the pass used up.
   */
  datatype Round = Round(bind: seq<Bytes>, served: seq<LinkResult>, stop: Option<ServerEnd>, used: nat)

  /**
   * One pass of main_loop, given what the probe came to and the next link's
   * result when a connection is there to accept. A probe that raises ends
   * the server; one refused is followed by the next probe; one returning OK
   * serves the next link, and the loop goes on only if that link left its
   * loop without an exception.
   */
  function RoundOutcome(outcome: BindOutcome, link: Option<LinkResult>): (r: Round)
    ensures r.used <= 1 && (r.used == 1 <==> outcome.Bound? && outcome.status == Ok && link.Some?)
    ensures r.served == (if r.used == 1 then [link.value] else [])
    ensures r.bind == BindReply(outcome)
    ensures r.stop == Some(ProbeCrashed) <==> outcome.BindCrashed?
    ensures r.stop.None? <==> outcome.Bound? && (outcome.status != Ok || (link.Some? && (link.value.end.Destroyed? || link.value.end.Refused?)))
  {
    match outcome
    case BindCrashed => Round([], [], Some(ProbeCrashed), 0)
    case Bound(status, _, _) =>
      var bind := BindReply(outcome);
      if status != Ok then Round(bind, [], None, 0)
      else if link.None? then Round(bind, [], Some(AwaitingLink), 0)
      else if link.value.end.Crashed? then Round(bind, [link.value], Some(LinkCrashed(link.value.end.crash)), 1)
      else if link.value.end == Waiting then Round(bind, [link.value], Some(InLink), 1)
      else Round(bind, [link.value], None, 1)
  }

  /**
   * main_loop over what successive RPCBIND connections (probes) came to and
   * what successive VXI-11 connections (links) came to: one round after the
   * other until a round stops the loop or the probes run out.
   */
  function ServerRun(outcomes: seq<BindOutcome>, links: seq<LinkResult>): ServerResult
    decreases |outcomes|
  {
    if |outcomes| == 0 then ServerResult([], [], AwaitingProbe)
    else
      var r := RoundOutcome(outcomes[0], if |links| > 0 then Some(links[0]) else None);
      if r.stop.Some? then ServerResult(r.bind, r.served, r.stop.value)
      else Then(r.bind, r.served, ServerRun(outcomes[1..], links[r.used..]))
  }

  /** A probe that raises ends the server. */
  lemma ProbeCrashes(probes: seq<Bytes>, links: seq<LinkResult>, vxi11Port: int)
    requires |probes| > 0 && ProcessRpcbindRequest(probes[0], vxi11Port).BindCrashed?
    ensures ServerRun(Probed(probes, vxi11Port), links) == ServerResult([], [], ProbeCrashed)
  {
    ProbedAt(probes, vxi11Port, 0);
  }

  /** A probe that returns an error code is followed by the next probe, with no link served. */
  lemma ProbeRefused(probes: seq<Bytes>, links: seq<LinkResult>, vxi11Port: int)
    requires |probes| > 0
    requires var o := ProcessRpcbindRequest(probes[0], vxi11Port); o.Bound? && o.status != Ok
    ensures ServerRun(Probed(probes, vxi11Port), links)
         == Then(BindReply(ProcessRpcbindRequest(probes[0], vxi11Port)), [], ServerRun(Probed(probes[1..], vxi11Port), links))
  {
    ProbedRest(probes, vxi11Port);
  }

  /** A probe that returns OK is followed by the next link, and the loop goes on only if that link left its loop without an exception. */
  lemma ProbeAdmits(probes: seq<Bytes>, links: seq<LinkResult>, vxi11Port: int)
    requires |probes| > 0
    requires var o := ProcessRpcbindRequest(probes[0], vxi11Port); o.Bound? && o.status == Ok
    ensures var bind := BindReply(ProcessRpcbindRequest(probes[0], vxi11Port));
      ServerRun(Probed(probes, vxi11Port), links) ==
        if |links| == 0 then ServerResult(bind, [], AwaitingLink)
        else if links[0].end.Crashed? then ServerResult(bind, [links[0]], LinkCrashed(links[0].end.crash))
        else if links[0].end == Waiting then ServerResult(bind, [links[0]], InLink)
        else Then(bind, [links[0]], ServerRun(Probed(probes[1..], vxi11Port), links[1..]))
  {
    ProbedRest(probes, vxi11Port);
  }

  lemma ProbedRest(probes: seq<Bytes>, vxi11Port: int)
    requires |probes| > 0
    ensures Probed(probes, vxi11Port)[0] == ProcessRpcbindRequest(probes[0], vxi11Port)
    ensures Probed(probes, vxi11Port)[1..] == Probed(probes[1..], vxi11Port)
  {
  }

  /** One round of main_loop at probe p and link l, as RoundOutcome says, then the rest of the run. */
  lemma RoundAt(outcomes: seq<BindOutcome>, p: nat, links: seq<LinkResult>, l: nat)
    requires p < |outcomes| && l <= |links|
    ensures var r := RoundOutcome(outcomes[p], if l < |links| then Some(links[l]) else None);
      l + r.used <= |links| &&
      ServerRun(outcomes[p..], links[l..]) ==
        if r.stop.Some? then ServerResult(r.bind, r.served, r.stop.value)
        else Then(r.bind, r.served, ServerRun(outcomes[p + 1..], links[l + r.used..]))
  {
    var now := outcomes[p..];
    assert now[0] == outcomes[p] && now[1..] == outcomes[p + 1..];
    if l < |links| {
      assert links[l..][0] == links[l] && links[l..][1..] == links[l + 1..];
    }
  }

  /** The loop invariant of main_loop, carried over one round, or the whole run when the round stops the loop. */
  lemma Advance(outcomes: seq<BindOutcome>, p: nat, links: seq<LinkResult>, l: nat, r: Round, b: seq<Bytes>, s: seq<LinkResult>)
    requires p < |outcomes| && l <= |links|
    requires r == RoundOutcome(outcomes[p], if l < |links| then Some(links[l]) else None)
    ensures l + r.used <= |links|
    ensures r.stop.Some? ==> Then(b, s, ServerRun(outcomes[p..], links[l..])) == ServerResult(b + r.bind, s + r.served, r.stop.value)
    ensures r.stop.None? ==> Then(b, s, ServerRun(outcomes[p..], links[l..])) == Then(b + r.bind, s + r.served, ServerRun(outcomes[p + 1..], links[l + r.used..]))
  {
    RoundAt(outcomes, p, links, l);
    if r.stop.None? {
      PrependTwice(b, s, r.bind, r.served, ServerRun(outcomes[p + 1..], links[l + r.used..]));
    }
  }

  /** `results` are what process_lxi_requests makes of each link, from an unbound payload. */
  predicate LinksServed(links: seq<seq<Bytes>>, driver: Driver, results: seq<LinkResult>)
  {
    |results| == |links| &&
    forall k {:trigger LinkRun(links[k], None, driver)} :: 0 <= k < |links| ==> results[k] == LinkRun(links[k], None, driver)
  }

  /** LinkResults lists what process_lxi_requests makes of each link. */
  lemma LinkResultsServed(links: seq<seq<Bytes>>, driver: Driver)
    ensures LinksServed(links, driver, LinkResults(links, driver))
  {
    forall k | 0 <= k < |links|
      ensures LinkResults(links, driver)[k] == LinkRun(links[k], None, driver)
    {
      LinkResultsAt(links, driver, k);
    }
  }

  /**
   * The body of main_loop: the p-th RPCBIND probe, then process_lxi_requests
   * on connection l if it returned OK, with what the round sent and served
   * added to the run so far; the round either stops the server or leaves
   * the rest of the run to the next probe and the next unused link.
   */
  method ServeRound(probes: seq<Bytes>, p: nat, links: seq<seq<Bytes>>, l: nat, vxi11Port: int, driver: Driver,
                    ghost results: seq<LinkResult>, bindReplies: seq<Bytes>, served: seq<LinkResult>)
    returns (bindAfter: seq<Bytes>, servedAfter: seq<LinkResult>, stop: Option<ServerEnd>, next: nat)
    requires p < |probes| && l <= |links| && LinksServed(links, driver, results)
    ensures next <= |links|
    ensures var run := Then(bindReplies, served, ServerRun(Probed(probes, vxi11Port)[p..], results[l..]));
      if stop.Some? then run == ServerResult(bindAfter, servedAfter, stop.value)
      else run == Then(bindAfter, servedAfter, ServerRun(Probed(probes, vxi11Port)[p + 1..], results[next..]))
  {
    var r := Round([], [], Some(ProbeCrashed), 0);
    var outcome := ProcessRpcbindRequest(probes[p], vxi11Port);
    if outcome.Bound? {
      var bind := if outcome.sent.Some? then [outcome.sent.value] else [];
      if outcome.status != Ok {
        r := Round(bind, [], None, 0);
      } else if l == |links| {
        r := Round(bind, [], Some(AwaitingLink), 0);
      } else {
        var replies, calls, linkEnd := ProcessLxiRequests(links[l], driver);
        var link := LinkResult(replies, calls, linkEnd);
        if linkEnd.Crashed? {
          r := Round(bind, [link], Some(LinkCrashed(linkEnd.crash)), 1);
        } else if linkEnd == Waiting {
          r := Round(bind, [link], Some(InLink), 1);
        } else {
          r := Round(bind, [link], None, 1);
        }
      }
    }
    ProbedAt(probes, vxi11Port, p);
    Advance(Probed(probes, vxi11Port), p, results, l, r, bindReplies, served);
    bindAfter, servedAfter, stop, next := bindReplies + r.bind, served + r.served, r.stop, l + r.used;
  }

  /** main_loop, over the probes and links the two listening sockets accept. */
  method MainLoop(probes: seq<Bytes>, links: seq<seq<Bytes>>, vxi11Port: int, driver: Driver)
    returns (bindReplies: seq<Bytes>, served: seq<LinkResult>, end: ServerEnd)
    ensures ServerResult(bindReplies, served, end) == ServerRun(Probed(probes, vxi11Port), LinkResults(links, driver))
  {
    LinkResultsServed(links, driver);
    bindReplies, served, end := Rounds(probes, links, vxi11Port, driver, LinkResults(links, driver));
  }

  /** The loop of main_loop, given what each link will come to. */
  method Rounds(probes: seq<Bytes>, links: seq<seq<Bytes>>, vxi11Port: int, driver: Driver, ghost results: seq<LinkResult>)
    returns (bindReplies: seq<Bytes>, served: seq<LinkResult>, end: ServerEnd)
    requires LinksServed(links, driver, results)
    ensures ServerResult(bindReplies, served, end) == ServerRun(Probed(probes, vxi11Port), results)
  {
    ghost var outcomes := Probed(probes, vxi11Port);
    bindReplies, served, end := [], [], AwaitingProbe;
    var p: nat, l: nat := 0, 0;
    while p < |probes|
      invariant p <= |probes| && l <= |links|
      invariant ServerRun(outcomes, results) == Then(bindReplies, served, ServerRun(outcomes[p..], results[l..]))
      decreases |probes| - p
    {
      var stop;
      bindReplies, served, stop, l := ServeRound(probes, p, links, l, vxi11Port, driver, results, bindReplies, served);
      if stop.Some? {
        end := stop.value;
        return;
      }
      p := p + 1;
    }
    NothingAppended(bindReplies, served);
  }

  lemma NothingAppended(b: seq<Bytes>, s: seq<LinkResult>)
    ensures b + [] == b && s + [] == s
  {
  }

  lemma PrependTwice(b1: seq<Bytes>, s1: seq<LinkResult>, b2: seq<Bytes>, s2: seq<LinkResult>, r: ServerResult)
    ensures Then(b1, s1, Then(b2, s2, r)) == Then(b1 + b2, s1 + s2, r)
  {
    assert b1 + (b2 + r.bindReplies) == b1 + b2 + r.bindReplies;
    assert s1 + (s2 + r.served) == s1 + s2 + r.served;
  }

  /** The links are served in the order they are accepted, each from a fresh, unbound `resp`. */
  lemma {:induction false} ServedInOrder(outcomes: seq<BindOutcome>, links: seq<LinkResult>)
    ensures ServerRun(outcomes, links).served <= links
    decreases |outcomes|
  {
    if |outcomes| > 0 {
      var r := RoundOutcome(outcomes[0], if |links| > 0 then Some(links[0]) else None);
      if r.stop.None? {
        ServedInOrder(outcomes[1..], links[r.used..]);
        if r.used == 1 {
          var tail := ServerRun(outcomes[1..], links[1..]).served;
          assert [links[0]] + tail <= [links[0]] + links[1..];
          assert links == [links[0]] + links[1..];
        }
      }
    }
  }

  /** The k-th link served is process_lxi_requests on the k-th connection accepted, started afresh. */
  lemma LinksStartUnbound(probes: seq<Bytes>, links: seq<seq<Bytes>>, vxi11Port: int, driver: Driver)
    ensures var served := ServerRun(Probed(probes, vxi11Port), LinkResults(links, driver)).served;
      |served| <= |links| && forall k :: 0 <= k < |served| ==> served[k] == LinkRun(links[k], None, driver)
  {
    var served := ServerRun(Probed(probes, vxi11Port), LinkResults(links, driver)).served;
    ServedInOrder(Probed(probes, vxi11Port), LinkResults(links, driver));
    forall k | 0 <= k < |served|
      ensures served[k] == LinkRun(links[k], None, driver)
    {
      LinkResultsAt(links, driver, k);
    }
  }

  /**
   * One round of a sweep: a probe that is answered (GetPortAnswered gives
   * the GETPORT probes for the VXI-11 core program) admits the next link,
   * and a link that ends with DESTROY_LINK hands the loop on to the next
   * probe.
   */
  lemma SweepRound(probe: Bytes, reply: Bytes, vxi11Port: int, link: LinkResult, probes: seq<Bytes>, links: seq<LinkResult>)
    requires ProcessRpcbindRequest(probe, vxi11Port) == Bound(Ok, Some(reply), true) && link.end == Destroyed
    ensures ServerRun(Probed([probe] + probes, vxi11Port), [link] + links)
         == Then([reply], [link], ServerRun(Probed(probes, vxi11Port), links))
  {
    assert ([probe] + probes)[0] == probe && ([probe] + probes)[1..] == probes;
    assert ([link] + links)[0] == link && ([link] + links)[1..] == links;
    ProbeAdmits([probe] + probes, [link] + links, vxi11Port);
  }
}
