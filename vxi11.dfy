/**
 * Request side of awg_server.py: the RPCBIND/portmapper GETPORT check
 * (section 3 of RFC 1833) and the fixed-offset parse of VXI-11 core
 * requests. A reference encoder of the requests an oscilloscope sends
 * (ONC RPC call framing, section 9 of RFC 5531, with XDR opaques,
 * section 4.10 of RFC 4506) serves as the partner the parser is proved
 * against.
 */
module Vxi11 {
  import opened Wrappers
  import opened ByteCodec
  import opened PyText
  import opened RpcFrame

  const GetPort: nat := 3
  const CreateLink: nat := 10
  const DeviceWrite: nat := 11
  const DeviceRead: nat := 12
  const DestroyLink: nat := 23
  const Vxi11Core: nat := 395183
  const Portmapper: nat := 100000

  /** Function responses of the server, with the source's numeric codes. */
  datatype Status = Ok | NotVxi11 | NotGetPort | UnknownCommand
  {
    function Code(): int
    {
      match this
      case Ok => 0
      case NotVxi11 => -1
      case NotGetPort => -2
      case UnknownCommand => -4
    }
  }

  predicate IsLxiProcedure(p: nat)
  {
    p == CreateLink || p == DeviceWrite || p == DeviceRead || p == DestroyLink
  }

  /** The big-endian word at a byte offset; None when the buffer ends first (IndexError). */
  function WordAt(rx: Bytes, at: nat): (w: Option<nat>)
    ensures w.Some? <==> |rx| >= at + 4
    ensures w.Some? ==> w == BytesToUint(rx[at..at + 4])
  {
    BytesToUint(Slice(rx, at, at + 4))
  }

  /** Payload bytes read as characters one for one (exact for ASCII text). */
  function Text(b: Bytes): (s: string)
    ensures |s| == |b| && forall k :: 0 <= k < |b| ==> s[k] as int == b[k]
  {
    seq(|b|, k requires 0 <= k < |b| => b[k] as char)
  }

  /** What parse_lxi_request returns: status, procedure id, stripped command text. */
  datatype LxiRequest = LxiRequest(status: Status, procedure: Option<nat>, command: Option<string>)

  /**
   * parse_lxi_request. None stands for the IndexError a buffer too short for
   * one of the words it reads raises. The program id is tested first; only
   * CREATE_LINK (length at 0x38, text at 0x3C) and DEVICE_WRITE (length at
   * 0x3C, text at 0x40) carry a command, and the slice is cut at the end of
   * the buffer.
   */
  function ParseLxiRequest(rx: Bytes): Option<LxiRequest>
  {
    match WordAt(rx, 0x10)
    case None => None
    case Some(program) =>
      if program != Vxi11Core then Some(LxiRequest(NotVxi11, None, None))
      else
        match WordAt(rx, 0x18)
        case None => None
        case Some(procedure) =>
          if procedure == CreateLink then
            match WordAt(rx, 0x38)
            case None => None
            case Some(len) => Some(LxiRequest(Ok, Some(procedure), Some(Strip(Text(Slice(rx, 0x3C, 0x3C + len))))))
          else if procedure == DeviceWrite then
            match WordAt(rx, 0x3C)
            case None => None
            case Some(len) => Some(LxiRequest(Ok, Some(procedure), Some(Strip(Text(Slice(rx, 0x40, 0x40 + len))))))
          else if procedure == DeviceRead || procedure == DestroyLink then
            Some(LxiRequest(Ok, Some(procedure), Some("")))
          else
            Some(LxiRequest(UnknownCommand, Some(procedure), Some("")))
  }

  /**
   * What parse_lxi_request promises its caller: an IndexError only on a
   * buffer too short for the program word or a word it goes on to read;
   * NOT_VXI11 for any other program; otherwise the procedure read at 0x18
   * and a command text, with OK exactly for the four link procedures and
   * UNKNOWN_COMMAND with an empty text for the rest.
   */
  lemma ParseLxiRequestCases(rx: Bytes)
    ensures var r := ParseLxiRequest(rx);
      (|rx| < 0x14 ==> r.None?)
      && (|rx| >= 0x14 && WordAt(rx, 0x10) != Some(Vxi11Core) ==> r == Some(LxiRequest(NotVxi11, None, None)))
      && (r.Some? && r.value.status != NotVxi11 ==> WordAt(rx, 0x10) == Some(Vxi11Core) && r.value.procedure == WordAt(rx, 0x18) && r.value.command.Some?)
      && (r.Some? && r.value.status == Ok ==> r.value.procedure.Some? && IsLxiProcedure(r.value.procedure.value))
      && (r.Some? && r.value.status == UnknownCommand ==> r.value.procedure.Some? && !IsLxiProcedure(r.value.procedure.value) && r.value.command == Some(""))
      && (r.Some? ==> r.value.status != NotGetPort)
      && (WordAt(rx, 0x10) == Some(Vxi11Core) && WordAt(rx, 0x18).Some? && !IsLxiProcedure(WordAt(rx, 0x18).value) ==> r == Some(LxiRequest(UnknownCommand, WordAt(rx, 0x18), Some(""))))
  {
  }

  /** A DEVICE_WRITE whose length word overshoots the buffer yields all the bytes after 0x40. */
  lemma WriteCommandTruncated(rx: Bytes)
    requires |rx| >= 0x40 && WordAt(rx, 0x10) == Some(Vxi11Core) && WordAt(rx, 0x18) == Some(DeviceWrite)
    requires 0x40 + WordAt(rx, 0x3C).value >= |rx|
    ensures ParseLxiRequest(rx) == Some(LxiRequest(Ok, Some(DeviceWrite), Some(Strip(Text(rx[0x40..])))))
  {
  }

  /** What process_rpcbind_request did with one probe. */
  datatype BindOutcome =
    | Bound(status: Status, sent: Option<Bytes>, closed: bool)  // returned a status code
    | BindCrashed                                               // raised IndexError on a short probe

  /**
   * process_rpcbind_request, with recv and send replaced by the received
   * buffer and the returned reply. The procedure is tested before the
   * program; both error returns skip connection.close(); an empty receive
   * answers nothing and still returns OK.
   */
  function ProcessRpcbindRequest(rx: Bytes, vxi11Port: int): BindOutcome
  {
    if |rx| == 0 then Bound(Ok, None, true)
    else
      match WordAt(rx, 0x18)
      case None => BindCrashed
      case Some(procedure) =>
        if procedure != GetPort then Bound(NotGetPort, None, false)
        else
          match WordAt(rx, 0x2C)
          case None => BindCrashed
          case Some(program) =>
            if program != Vxi11Core then Bound(NotVxi11, None, false)
            else Bound(Ok, Some(GenerateRespData(rx, RpcbindResponse(vxi11Port))), true)
  }
  /**
   * What process_rpcbind_request promises: an empty receive is OK without a
   * reply; any procedure but GETPORT is refused; a reply is sent exactly
   * for a GETPORT of the VXI-11 core program and carries the port; the
   * connection is closed exactly when OK is returned; an IndexError only
   * on a probe too short for a word it reads.
   */
  lemma ProcessRpcbindRequestCases(rx: Bytes, vxi11Port: int)
    ensures var r := ProcessRpcbindRequest(rx, vxi11Port);
      (|rx| == 0 ==> r == Bound(Ok, None, true))
      && (|rx| >= 0x1C && WordAt(rx, 0x18) != Some(GetPort) ==> r == Bound(NotGetPort, None, false))
      && (r.Bound? && r.sent.Some? <==> |rx| > 0 && WordAt(rx, 0x18) == Some(GetPort) && WordAt(rx, 0x2C) == Some(Vxi11Core))
      && (r.Bound? && r.sent.Some? ==> r.sent.value == GenerateRespData(rx, RpcbindResponse(vxi11Port)))
      && (r.Bound? ==> (r.closed <==> r.status == Ok) && r.status != UnknownCommand)
      && (r.Bound? && r.status != Ok ==> r.sent.None?)
      && (r.BindCrashed? <==> |rx| > 0 && (|rx| < 0x1C || (WordAt(rx, 0x18) == Some(GetPort) && |rx| < 0x30)))
  {
  }

  // ---------------------------------------------------------------------
  // Reference encoder of the oscilloscope's requests.
  // ---------------------------------------------------------------------

  predicate WordsFit(ws: seq<nat>)
  {
    forall i :: 0 <= i < |ws| ==> ws[i] < Word
  }

  /** Consecutive big-endian words. */
  function Words(ws: seq<nat>): (b: Bytes)
    ensures |b| == 4 * |ws|
  {
    if |ws| == 0 then [] else UintToBytes(ws[0]) + Words(ws[1..])
  }

  lemma {:induction false} WordsAt(ws: seq<nat>, i: nat)
    requires i < |ws|
    ensures Words(ws)[4 * i .. 4 * i + 4] == UintToBytes(ws[i])
    decreases i
  {
    if i > 0 {
      WordsAt(ws[1..], i - 1);
      assert Words(ws)[4 * i .. 4 * i + 4] == Words(ws[1..])[4 * (i - 1) .. 4 * (i - 1) + 4];
    }
  }

  /** A record-marked request: fragment header, the words, then the trailing bytes. */
  function Frame(ws: seq<nat>, tail: Bytes): (b: Bytes)
    ensures |b| == 4 + 4 * |ws| + |tail|
  {
    PacketSizeHeader(4 * |ws| + |tail|) + Words(ws) + tail
  }

  lemma FrameWord(ws: seq<nat>, tail: Bytes, i: nat)
    requires i < |ws| && WordsFit(ws)
    ensures WordAt(Frame(ws, tail), 4 + 4 * i) == Some(ws[i])
  {
    var b := Frame(ws, tail);
    WordsAt(ws, i);
    assert b[4 + 4 * i .. 4 + 4 * i + 4] == Words(ws)[4 * i .. 4 * i + 4];
    UintRoundTrip(ws[i]);
  }

  lemma FrameTail(ws: seq<nat>, tail: Bytes, from: nat, len: nat)
    requires from + len <= |tail|
    ensures Slice(Frame(ws, tail), 4 + 4 * |ws| + from, 4 + 4 * |ws| + from + len) == tail[from .. from + len]
  {
  }

  /** An ONC RPC CALL: xid, CALL, RPC version 2, program, version, procedure, AUTH_NULL credential and verifier. */
  function CallWords(xid: nat, program: nat, version: nat, procedure: nat): seq<nat>
  {
    [xid, 0, 2, program, version, procedure, 0, 0, 0, 0]
  }

  function Zeros(n: nat): (b: Bytes)
    ensures |b| == n
  {
    seq(n, _ => 0)
  }

  /** The XDR padding after an opaque of the given length. */
  function Padding(len: nat): nat
  {
    (4 - len % 4) % 4
  }

  /** CREATE_LINK(clientId, lockDevice, lock_timeout, device name). */
  function CreateLinkCall(xid: nat, device: Bytes): Bytes
  {
    Frame(CallWords(xid, Vxi11Core, 1, CreateLink) + [0, 0, 0, |device|], device + Zeros(Padding(|device|)))
  }

  /** DEVICE_WRITE(lid, io_timeout, lock_timeout, flags, data). */
  function DeviceWriteCall(xid: nat, data: Bytes): Bytes
  {
    Frame(CallWords(xid, Vxi11Core, 1, DeviceWrite) + [0, 10000, 10000, 8, |data|], data + Zeros(Padding(|data|)))
  }

  /** DEVICE_READ(lid, requestSize, io_timeout, lock_timeout, flags, termChar). */
  function DeviceReadCall(xid: nat): Bytes
  {
    Frame(CallWords(xid, Vxi11Core, 1, DeviceRead) + [0, 0x0080_0000, 10000, 10000, 0, 0], [])
  }

  /** DESTROY_LINK(lid). */
  function DestroyLinkCall(xid: nat): Bytes
  {
    Frame(CallWords(xid, Vxi11Core, 1, DestroyLink) + [0], [])
  }

  /** PMAPPROC_GETPORT(program, version, protocol TCP, port 0). */
  function GetPortCall(xid: nat, program: nat): Bytes
  {
    Frame(CallWords(xid, Portmapper, 2, GetPort) + [program, 1, 6, 0], [])
  }

  /** Every encoded call puts its xid where get_xid reads it. */
  lemma CallXid(xid: nat, program: nat, version: nat, procedure: nat, args: seq<nat>, tail: Bytes)
    requires xid < Word
    ensures GetXid(Frame(CallWords(xid, program, version, procedure) + args, tail)) == UintToBytes(xid)
  {
    var ws := CallWords(xid, program, version, procedure) + args;
    WordsAt(ws, 0);
    assert Frame(ws, tail)[4..8] == Words(ws)[0..4];
  }

  /** The parse of a well-formed VXI-11 call, from the words it reads. */
  lemma ParseFields(rx: Bytes, procedure: nat, lenAt: nat, len: nat)
    requires WordAt(rx, 0x10) == Some(Vxi11Core) && WordAt(rx, 0x18) == Some(procedure)
    requires procedure == CreateLink || procedure == DeviceWrite
    requires lenAt == if procedure == CreateLink then 0x38 else 0x3C
    requires WordAt(rx, lenAt) == Some(len)
    ensures ParseLxiRequest(rx) == Some(LxiRequest(Ok, Some(procedure), Some(Strip(Text(Slice(rx, lenAt + 4, lenAt + 4 + len))))))
  {
  }

  /**
   * A framed CREATE_LINK (14 words) or DEVICE_WRITE (15 words) whose last
   * word is the opaque's length parses to the first len tail bytes.
   */
  lemma ParseFrame(ws: seq<nat>, tail: Bytes, procedure: nat, len: nat)
    requires procedure == CreateLink || procedure == DeviceWrite
    requires |ws| == (if procedure == CreateLink then 14 else 15) && WordsFit(ws)
    requires ws[3] == Vxi11Core && ws[5] == procedure && ws[|ws| - 1] == len && len <= |tail|
    ensures ParseLxiRequest(Frame(ws, tail)) == Some(LxiRequest(Ok, Some(procedure), Some(Strip(Text(tail[..len])))))
  {
    var rx := Frame(ws, tail);
    FrameWord(ws, tail, 3);
    FrameWord(ws, tail, 5);
    FrameWord(ws, tail, |ws| - 1);
    FrameTail(ws, tail, 0, len);
    assert Slice(rx, 4 * |ws| + 4, 4 * |ws| + 4 + len) == tail[..len];
    ParseFields(rx, procedure, 4 * |ws|, len);
  }

  /** The command a DEVICE_WRITE carries comes back from the parse, stripped. */
  lemma ParseDeviceWrite(xid: nat, data: Bytes)
    requires xid < Word && |data| < 0x1000_0000
    ensures ParseLxiRequest(DeviceWriteCall(xid, data)) == Some(LxiRequest(Ok, Some(DeviceWrite), Some(Strip(Text(data)))))
  {
    var ws := CallWords(xid, Vxi11Core, 1, DeviceWrite) + [0, 10000, 10000, 8, |data|];
    var tail := data + Zeros(Padding(|data|));
    assert WordsFit(ws);
    assert tail[..|data|] == data;
    ParseFrame(ws, tail, DeviceWrite, |data|);
  }

  /** The device name a CREATE_LINK carries comes back from the parse, stripped. */
  lemma ParseCreateLink(xid: nat, device: Bytes)
    requires xid < Word && |device| < 0x1000_0000
    ensures ParseLxiRequest(CreateLinkCall(xid, device)) == Some(LxiRequest(Ok, Some(CreateLink), Some(Strip(Text(device)))))
  {
    var ws := CallWords(xid, Vxi11Core, 1, CreateLink) + [0, 0, 0, |device|];
    var tail := device + Zeros(Padding(|device|));
    assert WordsFit(ws);
    assert tail[..|device|] == device;
    ParseFrame(ws, tail, CreateLink, |device|);
  }

  /** A framed VXI-11 call of a procedure without a command text parses to that procedure. */
  lemma ParseNoCommand(ws: seq<nat>, procedure: nat)
    requires procedure == DeviceRead || procedure == DestroyLink
    requires |ws| >= 6 && WordsFit(ws) && ws[3] == Vxi11Core && ws[5] == procedure
    ensures ParseLxiRequest(Frame(ws, [])) == Some(LxiRequest(Ok, Some(procedure), Some("")))
  {
    FrameWord(ws, [], 3);
    FrameWord(ws, [], 5);
  }

  /** DEVICE_READ and DESTROY_LINK parse to their procedure with an empty command. */
  lemma ParseReadAndDestroy(xid: nat)
    requires xid < Word
    ensures ParseLxiRequest(DeviceReadCall(xid)) == Some(LxiRequest(Ok, Some(DeviceRead), Some("")))
    ensures ParseLxiRequest(DestroyLinkCall(xid)) == Some(LxiRequest(Ok, Some(DestroyLink), Some("")))
  {
    var rs := CallWords(xid, Vxi11Core, 1, DeviceRead) + [0, 0x0080_0000, 10000, 10000, 0, 0];
    assert WordsFit(rs);
    ParseNoCommand(rs, DeviceRead);
    var ds := CallWords(xid, Vxi11Core, 1, DestroyLink) + [0];
    assert WordsFit(ds);
    ParseNoCommand(ds, DestroyLink);
  }

  /**
   * A GETPORT probe for the VXI-11 core program is answered with the
   * configured port, under the probe's own xid; a probe for any other
   * program is refused without a reply.
   */
  lemma GetPortAnswered(xid: nat, program: nat, port: nat)
    requires xid < Word && program < Word && port < Word
    ensures var probe := GetPortCall(xid, program);
      var r := ProcessRpcbindRequest(probe, port);
      && (program == Vxi11Core ==>
            && r == Bound(Ok, Some(GenerateRespData(probe, UintToBytes(port))), true)
            && r.sent.value[4..8] == UintToBytes(xid)
            && BytesToUint(r.sent.value[28..]) == Some(port))
      && (program != Vxi11Core ==> r == Bound(NotVxi11, None, false))
  {
    var ws := CallWords(xid, Portmapper, 2, GetPort) + [program, 1, 6, 0];
    assert WordsFit(ws);
    var probe := Frame(ws, []);
    GetPortWords(ws, probe);
    CallXid(xid, Portmapper, 2, GetPort, [program, 1, 6, 0], []);
    if program == Vxi11Core {
      RespDataLayout(probe, UintToBytes(port));
      UintRoundTrip(port);
    }
  }

  /** Where process_rpcbind_request reads a framed GETPORT probe's procedure and program. */
  lemma GetPortWords(ws: seq<nat>, probe: Bytes)
    requires |ws| == 14 && WordsFit(ws) && probe == Frame(ws, [])
    ensures WordAt(probe, 0x18) == Some(ws[5]) && WordAt(probe, 0x2C) == Some(ws[10])
  {
    FrameWord(ws, [], 5);
    FrameWord(ws, [], 10);
  }
}
