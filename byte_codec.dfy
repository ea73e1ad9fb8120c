/**
 * Big-endian 32-bit packing used by every RPC field (awg_server.py,
 * bytes_to_uint and uint_to_bytes).
 */
module ByteCodec {
  import opened Wrappers

  type Byte = x: int | 0 <= x < 256
  type Bytes = seq<Byte>

  const Word: nat := 0x1_0000_0000

  /**
   * bytes_to_uint: bytes 0..3 of the slice, byte 0 most significant. A slice
   * shorter than four bytes raises IndexError (None here); the function is
   * only ever given four-byte slices, so bytes past the fourth do not occur.
   */
  function BytesToUint(b: Bytes): (r: Option<nat>)
    ensures r.Some? <==> |b| >= 4
    ensures r.Some? ==> r.value < Word
  {
    if |b| < 4 then None
    else Some((((b[0] as int) * 0x100 + b[1] as int) * 0x100 + b[2] as int) * 0x100 + b[3] as int)
  }

  /**
   * uint_to_bytes: (n // 256^k) & 0xFF for k = 3, 2, 1, 0. Python's floor
   * division and & 0xFF agree with Dafny's Euclidean / and % by a positive
   * constant, so this is exact for every integer, negative ones included.
   */
  function UintToBytes(n: int): (r: Bytes)
    ensures |r| == 4
  {
    [(n / 0x1000000) % 0x100, (n / 0x10000) % 0x100, (n / 0x100) % 0x100, n % 0x100]
  }

  /** Decoding what was encoded gives the number back, for every 32-bit value. */
  lemma UintRoundTrip(n: int)
    requires 0 <= n < Word
    ensures BytesToUint(UintToBytes(n)) == Some(n)
  {
    var q1 := n / 0x100;
    var q2 := q1 / 0x100;
    assert n / 0x10000 == q2;
    assert n / 0x1000000 == q2 / 0x100;
    assert q2 / 0x100 < 0x100;
  }

  /** Encoding a 4-byte sequence's value gives the same four bytes. */
  lemma BytesRoundTrip(b: Bytes)
    requires |b| == 4
    ensures UintToBytes(BytesToUint(b).value) == b
  {
    var n := BytesToUint(b).value;
    var b0, b1, b2, b3 := b[0] as int, b[1] as int, b[2] as int, b[3] as int;
    assert n / 0x100 == (b0 * 0x100 + b1) * 0x100 + b2 by {
      assert n == ((b0 * 0x100 + b1) * 0x100 + b2) * 0x100 + b3;
    }
    assert n / 0x10000 == b0 * 0x100 + b1 by {
      assert n == (b0 * 0x100 + b1) * 0x10000 + (b2 * 0x100 + b3);
      assert 0 <= b2 * 0x100 + b3 < 0x10000;
    }
    assert n / 0x1000000 == b0 by {
      assert n == b0 * 0x1000000 + ((b1 * 0x100 + b2) * 0x100 + b3);
      assert 0 <= (b1 * 0x100 + b2) * 0x100 + b3 < 0x1000000;
    }
    ModShift((b0 * 0x100 + b1) * 0x100 + b2, b3);
    ModShift(b0 * 0x100 + b1, b2);
    ModShift(b0, b1);
  }

  /** Whole multiples of 2^32 shift each byte's quotient by a multiple of 256. */
  lemma ShiftedQuotients(q: int, m: int)
    requires 0 <= m < Word
    ensures (q * Word + m) / 0x1000000 == q * 0x100 + m / 0x1000000
    ensures (q * Word + m) / 0x10000 == q * 0x10000 + m / 0x10000
    ensures (q * Word + m) / 0x100 == q * 0x1000000 + m / 0x100
  {
  }

  /** Only the low 32 bits reach the wire: n and n mod 2^32 encode alike. */
  lemma UintKeepsLowBits(n: int)
    ensures UintToBytes(n) == UintToBytes(n % Word)
  {
    var q := n / Word;
    var m := n % Word;
    assert n == q * Word + m;
    ShiftedQuotients(q, m);
    ModShift(q, m / 0x1000000);
    ModShift(q * 0x100, m / 0x10000);
    ModShift(q * 0x10000, m / 0x100);
    ModShift(q * 0x1000000, m);
  }

  lemma ModShift(a: int, x: int)
    ensures (a * 0x100 + x) % 0x100 == x % 0x100
  {
  }

  /** The first byte on the wire is the most significant: it is n div 2^24 for 32-bit n. */
  lemma UintMostSignificantFirst(n: int)
    requires 0 <= n < Word
    ensures UintToBytes(n)[0] == n / 0x1000000
    ensures UintToBytes(n)[3] == n % 0x100
  {
  }
}
