/**
 * The RPC reply envelope the bridge sends back for every answered request:
 * a record-marking fragment header (section 11 of RFC 5531), the accepted
 * reply header (section 9 of RFC 5531), then a procedure payload; and the
 * three payload builders of awg_server.py.
 */
module RpcFrame {
  import opened Wrappers
  import opened ByteCodec
  import opened PyText

  /** Record-marking bit for "last fragment". */
  const LastFragment: nat := 0x8000_0000

  /** Fixed reply header words. */
  const MsgReply: nat := 1
  const ReplyAccepted: nat := 0
  const AuthNull: nat := 0
  const AcceptSuccess: nat := 0

  /** VXI-11 reason code END and the maximum receive size CREATE_LINK advertises. */
  const ReasonEnd: nat := 4
  const MaxReceiveSize: nat := 0x0080_0000

  /** Identification string answered to every DEVICE_READ (AWG_ID_STRING). */
  const AwgIdText: string := "IDN-SGLT-PRI SDG0000X"

  /** The bytes of an ASCII text. */
  function Ascii(s: string): (b: Bytes)
    requires forall k :: 0 <= k < |s| ==> s[k] as int < 256
    ensures |b| == |s| && forall k :: 0 <= k < |s| ==> b[k] == s[k] as int
  {
    seq(|s|, k requires 0 <= k < |s| => s[k] as int)
  }

  function AwgIdString(): (b: Bytes)
    ensures |b| == 21
  {
    Ascii(AwgIdText)
  }

  /** get_xid: bytes 4..8 of the request, cut short when the request is. */
  function GetXid(rx: Bytes): (xid: Bytes)
    ensures |xid| <= 4
    ensures |rx| >= 8 ==> xid == rx[4..8]
  {
    Slice(rx, 4, 8)
  }

  /** size | 0x80000000 for a non-negative size. */
  function WithLastFragment(size: nat): (r: nat)
    ensures r % LastFragment == size % LastFragment
    ensures size < LastFragment ==> r == size + LastFragment
  {
    if (size / LastFragment) % 2 == 1 then size else size + LastFragment
  }

  /** generate_packet_size_header: the fragment length with the last-fragment bit set. */
  function PacketSizeHeader(size: nat): (h: Bytes)
    ensures |h| == 4
    ensures size < LastFragment ==> BytesToUint(h) == Some(LastFragment + size)
  {
    var w := WithLastFragment(size);
    assert size < LastFragment ==> BytesToUint(UintToBytes(w)) == Some(w) by {
      if size < LastFragment { UintRoundTrip(w); }
    }
    UintToBytes(w)
  }

  /** generate_rpc_header: xid, REPLY, ACCEPTED, AUTH_NULL verifier of length 0, SUCCESS. */
  function RpcHeader(xid: Bytes): (h: Bytes)
    ensures |h| == |xid| + 20
  {
    xid + UintToBytes(MsgReply) + UintToBytes(ReplyAccepted)
        + UintToBytes(AuthNull) + UintToBytes(0) + UintToBytes(AcceptSuccess)
  }

  /** generate_resp_data: fragment header, then RPC header, then the payload. */
  function GenerateRespData(rx: Bytes, resp: Bytes): (r: Bytes)
    ensures |r| == 24 + |GetXid(rx)| + |resp|
  {
    var hdr := RpcHeader(GetXid(rx));
    PacketSizeHeader(|hdr| + |resp|) + hdr + resp
  }

  /**
   * For a request of at least 8 bytes the reply is 28 + |resp| bytes: the
   * fragment word 0x80000000 | (24 + |resp|), the echoed xid, the words
   * 1, 0, 0, 0, 0, and the payload unchanged.
   */
  lemma RespDataLayout(rx: Bytes, resp: Bytes)
    requires |rx| >= 8 && 24 + |resp| < LastFragment
    ensures var r := GenerateRespData(rx, resp);
      && |r| == 28 + |resp|
      && BytesToUint(r[0..4]) == Some(LastFragment + 24 + |resp|)
      && r[4..8] == rx[4..8]
      && BytesToUint(r[8..12]) == Some(MsgReply)
      && BytesToUint(r[12..16]) == Some(0)
      && BytesToUint(r[16..20]) == Some(0)
      && BytesToUint(r[20..24]) == Some(0)
      && BytesToUint(r[24..28]) == Some(0)
      && r[28..] == resp
  {
    var r := GenerateRespData(rx, resp);
    var xid := rx[4..8];
    assert UintToBytes(0) == [0, 0, 0, 0];
    assert UintToBytes(1) == [0, 0, 0, 1];
    var hdr := RpcHeader(xid);
    assert hdr == xid + [0, 0, 0, 1] + [0, 0, 0, 0] + [0, 0, 0, 0] + [0, 0, 0, 0] + [0, 0, 0, 0];
    assert r == PacketSizeHeader(24 + |resp|) + hdr + resp;
    assert r[0..4] == PacketSizeHeader(24 + |resp|);
    assert r[4..28] == hdr;
    assert r[8..12] == [0, 0, 0, 1];
    assert r[12..16] == r[16..20] == r[20..24] == r[24..28] == [0, 0, 0, 0];
  }

  /** generate_rpcbind_response: the VXI-11 port as one big-endian word. */
  function RpcbindResponse(port: int): (r: Bytes)
    ensures |r| == 4
    ensures 0 <= port < Word ==> BytesToUint(r) == Some(port)
  {
    assert 0 <= port < Word ==> BytesToUint(UintToBytes(port)) == Some(port) by {
      if 0 <= port < Word { UintRoundTrip(port); }
    }
    UintToBytes(port)
  }

  /**
   * generate_lxi_create_link_response: error 0, link id 0, abort port 0 and
   * the literal bytes 00 80 00 00, which are the encoding of the maximum
   * receive size 8388608.
   */
  function CreateLinkResponse(): (r: Bytes)
    ensures |r| == 16
    ensures BytesToUint(r[0..4]) == Some(0) && BytesToUint(r[4..8]) == Some(0)
    ensures BytesToUint(r[8..12]) == Some(0)
    ensures r[12..16] == UintToBytes(MaxReceiveSize)
  {
    [0, 0, 0, 0] + [0, 0, 0, 0] + [0, 0, 0, 0] + [0x00, 0x80, 0x00, 0x00]
  }

  /**
   * generate_lxi_idn_response: error 0, reason END, a length word counting
   * the identification plus its three terminator bytes, the identification,
   * then "\n\0\0". The opaque is not padded to a multiple of four.
   */
  function IdnResponse(id: Bytes): (r: Bytes)
    ensures |r| == 15 + |id|
  {
    [0, 0, 0, 0] + [0, 0, 0, 4] + UintToBytes(|id| + 3) + id + [0x0A, 0x00, 0x00]
  }

  lemma IdnLayout(id: Bytes)
    requires |id| + 3 < Word
    ensures var r := IdnResponse(id);
      && BytesToUint(r[0..4]) == Some(0)
      && BytesToUint(r[4..8]) == Some(ReasonEnd)
      && BytesToUint(r[8..12]) == Some(|id| + 3)
      && r[12..12 + |id|] == id
      && r[12 + |id|..] == [0x0A, 0x00, 0x00]
      && |r[12..]| == |id| + 3
  {
    var r := IdnResponse(id);
    assert r[8..12] == UintToBytes(|id| + 3);
    UintRoundTrip(|id| + 3);
  }

  /**
   * The configured identification carries "SDG" after its "IDN-SGLT-PRI "
   * prefix, and its declared opaque length 24 is a multiple of four, so the
   * missing XDR padding (section 4.10 of RFC 4506) does not show for it.
   */
  lemma AwgIdReplyAligned()
    ensures AwgIdString()[13..16] == Ascii("SDG")
    ensures (|AwgIdString()| + 3) % 4 == 0
    ensures |IdnResponse(AwgIdString())| == 36
  {
  }
}
