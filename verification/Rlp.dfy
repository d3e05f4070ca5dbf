/** The header of an RLP list: Appendix B of the Ethereum Yellow Paper. */
module Rlp {
  import opened Amounts

  newtype byte = x: int | 0 <= x < 256

  type Uint64 = x: nat | x < TWO64

  function Power(n: nat): nat { if n == 0 then 1 else 256 * Power(n - 1) }

  lemma Powers()
    ensures Power(1) == 0x100 && Power(2) == 0x1_0000 && Power(3) == 0x100_0000 && Power(4) == 0x1_0000_0000
    ensures Power(5) == 0x100_0000_0000 && Power(6) == 0x1_0000_0000_0000 && Power(7) == 0x100_0000_0000_0000
    ensures Power(8) == TWO64
  {
    assert Power(0) == 1;
    assert Power(1) == 0x100;
    assert Power(2) == 0x1_0000;
    assert Power(3) == 0x100_0000;
    assert Power(4) == 0x1_0000_0000;
    assert Power(5) == 0x100_0000_0000;
    assert Power(6) == 0x1_0000_0000_0000;
    assert Power(7) == 0x100_0000_0000_0000;
  }

  /* ---- the specification ---- */

  /** The big-endian bytes of a number, without leading zeros; a single zero byte for 0. */
  function BigEndian(i: nat): seq<byte> {
    if i < 256 then [i as byte] else BigEndian(i / 256) + [(i % 256) as byte]
  }

  function Number(bytes: seq<byte>): nat {
    if bytes == [] then 0 else 256 * Number(bytes[..|bytes| - 1]) + bytes[|bytes| - 1] as nat
  }

  lemma {:induction false} NumberOfBigEndian(i: nat)
    ensures Number(BigEndian(i)) == i
    ensures |BigEndian(i)| >= 1 && (i > 0 ==> BigEndian(i)[0] != 0)
  {
    if i < 256 {
      assert BigEndian(i)[..0] == [];
    } else {
      NumberOfBigEndian(i / 256);
      assert BigEndian(i)[..|BigEndian(i)| - 1] == BigEndian(i / 256);
    }
  }

  /** The length of the bytes is the least one that can hold the number. */
  lemma {:induction false} LengthOfBigEndian(i: nat, k: nat)
    requires k >= 1
    ensures |BigEndian(i)| <= k <==> i < Power(k)
  {
    if i >= 256 && k > 1 {
      LengthOfBigEndian(i / 256, k - 1);
    } else if i >= 256 {
      NumberOfBigEndian(i / 256);
    } else {
      PowerGrows(k);
    }
  }

  lemma {:induction false} PowerGrows(k: nat)
    requires k >= 1
    ensures Power(k) >= 256
  {
    if k > 1 {
      PowerGrows(k - 1);
    }
  }

  function Header(length: Uint64): seq<byte> {
    if length <= 55 then [(0xc0 + length) as byte]
    else
      HeaderFits(length);
      [(0xf7 + |BigEndian(length)|) as byte] + BigEndian(length)
  }

  lemma HeaderFits(length: Uint64)
    ensures 1 <= |BigEndian(length)| <= 8
  {
    Powers();
    LengthOfBigEndian(length, 8);
    NumberOfBigEndian(length);
  }

  /* ---- what the program writes ---- */

  /** `SizeofSize`: shifts the number away byte by byte. */
  method SizeofSize(i: Uint64) returns (size: nat)
    ensures size == |BigEndian(i)| && 1 <= size <= 8
  {
    HeaderFits(i);
    size := 1;
    var rest: nat := i / 256;
    while rest != 0
      invariant size >= 1
      invariant |BigEndian(i)| == if rest == 0 then size else size + |BigEndian(rest)|
      decreases rest
    {
      size := size + 1;
      rest := rest / 256;
    }
  }

  /** The lowest `count` bytes of a number, highest first: `byte(i >> 8 * (count - 1)), ..., byte(i)`. */
  function LowBytes(i: nat, count: nat): seq<byte> {
    if count == 0 then [] else LowBytes(i / 256, count - 1) + [(i % 256) as byte]
  }

  lemma {:induction false} LowBytesAreBigEndian(i: nat)
    ensures LowBytes(i, |BigEndian(i)|) == BigEndian(i)
  {
    if i >= 256 {
      LowBytesAreBigEndian(i / 256);
    } else {
      assert LowBytes(i, 1) == [(i % 256) as byte];
    }
  }

  /** `PutInt`: one case per number of bytes. */
  method PutInt(i: Uint64) returns (out: seq<byte>)
    ensures out == BigEndian(i)
  {
    Powers();
    forall k | 1 <= k <= 8 ensures |BigEndian(i)| <= k <==> i < Power(k) {
      LengthOfBigEndian(i, k);
    }
    HeaderFits(i);
    LowBytesAreBigEndian(i);
    if i < 0x100 {
      out := LowBytes(i, 1);
    } else if i < 0x1_0000 {
      out := LowBytes(i, 2);
    } else if i < 0x100_0000 {
      out := LowBytes(i, 3);
    } else if i < 0x1_0000_0000 {
      out := LowBytes(i, 4);
    } else if i < 0x100_0000_0000 {
      out := LowBytes(i, 5);
    } else if i < 0x1_0000_0000_0000 {
      out := LowBytes(i, 6);
    } else if i < 0x100_0000_0000_0000 {
      out := LowBytes(i, 7);
    } else {
      out := LowBytes(i, 8);
    }
  }

  method PutListLength(length: Uint64) returns (out: seq<byte>)
    ensures out == Header(length)
  {
    if length <= 55 {
      out := [(0xc0 + length) as byte];
    } else {
      var size := SizeofSize(length);
      var tail := PutInt(length);
      out := [(0xf7 + size) as byte] + tail;
    }
  }

  /* ---- reading it back ---- */

  datatype Decoded = Invalid | List(length: nat, rest: seq<byte>)

  /** A reader of list headers that refuses what is not the shortest form. */
  function Decode(bytes: seq<byte>): Decoded {
    if bytes == [] || bytes[0] < 0xc0 then Invalid
    else if bytes[0] <= 0xf7 then List((bytes[0] - 0xc0) as nat, bytes[1..])
    else
      var size := (bytes[0] - 0xf7) as nat;
      if |bytes| < 1 + size || bytes[1] == 0 then Invalid
      else
        var length := Number(bytes[1..1 + size]);
        if length <= 55 then Invalid else List(length, bytes[1 + size..])
  }

  /** Every length comes back, whatever follows the header. */
  lemma HeaderRoundTrip(length: Uint64, rest: seq<byte>)
    ensures Decode(Header(length) + rest) == List(length, rest)
  {
    var bytes := Header(length) + rest;
    if length <= 55 {
      assert bytes[1..] == rest;
    } else {
      var tail := BigEndian(length);
      HeaderFits(length);
      NumberOfBigEndian(length);
      assert bytes[1..1 + |tail|] == tail;
      assert bytes[1 + |tail|..] == rest;
    }
  }

  lemma {:induction false} BigEndianOfNumber(bytes: seq<byte>)
    requires bytes != [] && bytes[0] != 0
    ensures BigEndian(Number(bytes)) == bytes && Number(bytes) < Power(|bytes|) && Number(bytes) > 0
    decreases |bytes|
  {
    var front, last := bytes[..|bytes| - 1], bytes[|bytes| - 1];
    assert bytes == front + [last];
    if front == [] {
      assert Power(0) == 1;
      assert Power(1) == 256;
      assert Number(front) == 0;
      assert Number(bytes) == last as nat;
    } else {
      BigEndianOfNumber(front);
      assert Number(bytes) / 256 == Number(front) && Number(bytes) % 256 == last as nat;
    }
  }

  /** What the reader accepts is the header the program writes, so the two are inverse to each other. */
  lemma DecodedIsHeader(bytes: seq<byte>)
    requires Decode(bytes).List?
    ensures Decode(bytes).length < TWO64 && bytes == Header(Decode(bytes).length) + Decode(bytes).rest
  {
    if bytes[0] > 0xf7 {
      var size := (bytes[0] - 0xf7) as nat;
      var tail := bytes[1..1 + size];
      BigEndianOfNumber(tail);
      LengthOfBigEndian(Number(tail), size);
      PowerOrder(size, 8);
      Powers();
      assert bytes == [bytes[0]] + tail + bytes[1 + size..];
    }
  }

  lemma {:induction false} PowerOrder(m: nat, n: nat)
    requires m <= n
    ensures Power(m) <= Power(n)
  {
    if m < n {
      PowerOrder(m, n - 1);
    }
  }

  /** No header is the beginning of another one, and different lengths have different headers. */
  lemma HeadersAreUnambiguous(m: Uint64, n: Uint64, x: seq<byte>, y: seq<byte>)
    requires Header(m) + x == Header(n) + y
    ensures m == n && x == y
  {
    HeaderRoundTrip(m, x);
    HeaderRoundTrip(n, y);
  }
}
