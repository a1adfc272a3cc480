/** The bit-serial CRC-32 the editor computes over the firmware state layout
    (src/utils/checksum.ts, `crc32_push`): generator polynomial 0x04C11DB7,
    most significant bit first, no reflection and no final XOR. The running
    value is held as its 32-bit pattern, which is all JavaScript's bitwise
    operators look at. */
module Crc {
  import opened Common

  const CRC32_POLY: bv32 := 0x04C1_1DB7

  /** One shift step: shift left and XOR the polynomial in when the bit
      shifted out was set. */
  function CrcBit(c: bv32): bv32
  {
    if c & 0x8000_0000 != 0 then (c << 1) ^ CRC32_POLY else c << 1
  }

  function CrcBits(c: bv32, n: nat): bv32
    decreases n
  {
    if n == 0 then c else CrcBits(CrcBit(c), n - 1)
  }

  /** One data item: XOR it into the top byte, then eight shift steps. */
  function CrcByte(c: bv32, d: bv32): bv32
  {
    CrcBits(c ^ (d << 24), 8)
  }

  /** The items folded in from left to right. */
  function CrcFold(c: bv32, data: seq<bv32>): bv32
    decreases |data|
  {
    if |data| == 0 then c else CrcFold(CrcByte(c, data[0]), data[1..])
  }

  /** crc32_push. `crc` and the items of `data` are the 32-bit patterns
      JavaScript's `^` and `<<` see in the incoming numbers; the result is the
      unsigned number `crc >>> 0` returns. */
  method Crc32Push(crc: bv32, data: seq<bv32>) returns (r: int)
    ensures 0 <= r < 0x1_0000_0000
    ensures r == CrcFold(crc, data) as int
    ensures |data| == 0 ==> r == crc as int
  {
    var c := crc;
    var i := 0;
    while i < |data|
      invariant 0 <= i <= |data|
      invariant CrcFold(c, data[i..]) == CrcFold(crc, data)
    {
      var start := c ^ (data[i] << 24);
      c := start;
      var bit := 0;
      while bit < 8
        invariant 0 <= bit <= 8
        invariant CrcBits(c, 8 - bit) == CrcBits(start, 8)
      {
        if c & 0x8000_0000 != 0 {
          c := (c << 1) ^ CRC32_POLY;
        } else {
          c := c << 1;
        }
        bit := bit + 1;
      }
      assert data[i..][1..] == data[i + 1..];
      i := i + 1;
    }
    r := c as int;
  }

  /** Pushing two arrays one after the other is pushing their concatenation. */
  lemma {:induction false} CrcFoldAppend(c: bv32, a: seq<bv32>, b: seq<bv32>)
    ensures CrcFold(c, a + b) == CrcFold(CrcFold(c, a), b)
    decreases |a|
  {
    if |a| > 0 {
      assert (a + b)[0] == a[0];
      assert (a + b)[1..] == a[1..] + b;
      CrcFoldAppend(CrcByte(c, a[0]), a[1..], b);
    } else {
      assert a + b == b;
    }
  }

  /** `data[i] << 24` drops all but the low eight bits of an item. */
  lemma LowByteOnly(c: bv32, d: bv32)
    ensures CrcByte(c, d) == CrcByte(c, d & 0xff)
  {
    assert d << 24 == (d & 0xff) << 24;
  }

  lemma {:induction false} LowBytesOnly(c: bv32, a: seq<bv32>, b: seq<bv32>)
    requires |a| == |b|
    requires forall i :: 0 <= i < |a| ==> a[i] & 0xff == b[i] & 0xff
    ensures CrcFold(c, a) == CrcFold(c, b)
    decreases |a|
  {
    if |a| > 0 {
      LowByteOnly(c, a[0]);
      LowByteOnly(c, b[0]);
      LowBytesOnly(CrcByte(c, a[0]), a[1..], b[1..]);
    }
  }
}
