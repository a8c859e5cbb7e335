/** Bytes, and whole numbers laid out in a fixed number of them in either order. */
module Bytes {
  import opened Bits

  type byte = x: int | 0 <= x < 256

  function Low(n: nat): byte {
    n % 256
  }

  lemma LowIsMask(n: nat)
    ensures And(n, 255) == Low(n)
  {
    assert Pow2(8) == 256;
    AndMask(n, 8);
  }

  /** 256 to the power k: one more than the largest number in k bytes. */
  function Range(k: nat): (p: nat)
    ensures p >= 1
  {
    if k == 0 then 1 else 256 * Range(k - 1)
  }

  lemma Ranges()
    ensures Range(1) == 0x100 && Range(2) == 0x1_0000 && Range(3) == 0x100_0000 && Range(4) == 0x1_0000_0000
  {
    assert Range(3) == 0x100 * Range(2);
  }

  lemma {:induction false} RangeIsPow2(k: nat)
    ensures Range(k) == Pow2(8 * k)
  {
    if k == 0 {
    } else {
      RangeIsPow2(k - 1);
      var low := 8 * k - 8;
      assert Pow2(low + 2) == 4 * Pow2(low);
      assert Pow2(low + 4) == 4 * Pow2(low + 2);
      assert Pow2(low + 6) == 4 * Pow2(low + 4);
      assert Pow2(low + 8) == 4 * Pow2(low + 6);
    }
  }

  /** Shifts by whole bytes. */
  function ShiftedLeft(n: nat, places: nat): nat {
    n * Range(places)
  }

  /** Or-ing in bits above all the others adds them. */
  lemma OrAbove(low: nat, high: nat, places: nat)
    requires low < Range(places)
    ensures Or(low, ShiftedLeft(high, places)) == low + ShiftedLeft(high, places)
  {
    RangeIsPow2(places);
    OrShifted(low, high, 8 * places);
  }

  /** The low byte, cut out with a mask. */
  function Masked(n: nat): (b: byte)
    ensures b == Low(n)
  {
    LowIsMask(n);
    And(n, 0xFF)
  }

  function ShiftedRight(n: nat, places: nat): nat {
    if places == 0 then n else ShiftedRight(n / 0x100, places - 1)
  }

  function Le(n: nat, k: nat): (bs: seq<byte>)
    ensures |bs| == k
  {
    if k == 0 then [] else [Low(n)] + Le(n / 256, k - 1)
  }

  function FromLe(bs: seq<byte>): nat {
    if bs == [] then 0 else bs[0] + 256 * FromLe(bs[1..])
  }

  function Be(n: nat, k: nat): (bs: seq<byte>)
    ensures |bs| == k
  {
    if k == 0 then [] else Be(n / 256, k - 1) + [Low(n)]
  }

  function FromBe(bs: seq<byte>): nat {
    if bs == [] then 0 else 256 * FromBe(bs[..|bs| - 1]) + bs[|bs| - 1]
  }

  lemma {:induction false} LeRoundTrip(n: nat, k: nat)
    requires n < Range(k)
    ensures FromLe(Le(n, k)) == n
    decreases k
  {
    if k == 0 {
    } else {
      LeRoundTrip(n / 256, k - 1);
      assert Le(n, k)[1..] == Le(n / 256, k - 1);
    }
  }

  lemma {:induction false} FromLeRoundTrip(bs: seq<byte>)
    ensures Le(FromLe(bs), |bs|) == bs && FromLe(bs) < Range(|bs|)
  {
    if bs == [] {
    } else {
      FromLeRoundTrip(bs[1..]);
      ModUnique(FromLe(bs), 256, FromLe(bs[1..]), bs[0]);
    }
  }

  lemma {:induction false} BeRoundTrip(n: nat, k: nat)
    requires n < Range(k)
    ensures FromBe(Be(n, k)) == n
    decreases k
  {
    if k == 0 {
    } else {
      BeRoundTrip(n / 256, k - 1);
      assert Be(n, k)[..k - 1] == Be(n / 256, k - 1);
    }
  }

  lemma {:induction false} FromBeRoundTrip(bs: seq<byte>)
    ensures Be(FromBe(bs), |bs|) == bs && FromBe(bs) < Range(|bs|)
    decreases |bs|
  {
    if bs == [] {
    } else {
      var n := |bs| - 1;
      FromBeRoundTrip(bs[..n]);
      ModUnique(FromBe(bs), 256, FromBe(bs[..n]), bs[n]);
      assert bs == bs[..n] + [bs[n]];
    }
  }

  lemma {:induction false} FromBeFirst(bs: seq<byte>)
    requires bs != []
    ensures FromBe(bs) == bs[0] * Range(|bs| - 1) + FromBe(bs[1..])
    decreases |bs|
  {
    var n := |bs| - 1;
    if n == 0 {
      assert bs[..0] == [];
    } else {
      FromBeFirst(bs[..n]);
      assert bs[..n][1..] == bs[1..][..n - 1];
      assert 256 * (bs[0] * Range(n - 1)) == bs[0] * Range(n);
    }
  }

  /** The value of bytes with the highest first, read from the front. */
  function FromHigh(bs: seq<byte>): nat {
    if bs == [] then 0 else bs[0] * Range(|bs| - 1) + FromHigh(bs[1..])
  }

  lemma {:induction false} FromBeIsHigh(bs: seq<byte>)
    ensures FromBe(bs) == FromHigh(bs)
  {
    if bs == [] {
    } else {
      FromBeFirst(bs);
      FromBeIsHigh(bs[1..]);
    }
  }

  lemma BeIsHigh(n: nat, k: nat)
    requires n < Range(k)
    ensures FromHigh(Be(n, k)) == n
  {
    BeRoundTrip(n, k);
    FromBeIsHigh(Be(n, k));
  }

  /** A file or a connection: written at the end, read from a position. */
  class ByteStream {
    var bytes: seq<byte>
    var pos: nat

    ghost predicate Valid()
      reads this
    {
      pos <= |bytes|
    }

    function Rest(): seq<byte>
      reads this
      requires Valid()
    {
      bytes[pos..]
    }

    constructor (bytes: seq<byte>)
      ensures Valid() && Rest() == bytes && this.bytes == bytes
    {
      this.bytes, pos := bytes, 0;
    }

    method Write(chunk: seq<byte>)
      requires Valid()
      modifies `bytes
      ensures Valid() && bytes == old(bytes) + chunk && Rest() == old(Rest()) + chunk
    {
      bytes := bytes + chunk;
    }

    /** Up to `n` bytes; fewer only at the end of the file. */
    method Read(n: nat) returns (chunk: seq<byte>)
      requires Valid()
      modifies `pos
      ensures Valid() && chunk + Rest() == old(Rest())
      ensures |chunk| == if n <= |old(Rest())| then n else |old(Rest())|
    {
      var end := if n <= |bytes| - pos then pos + n else |bytes|;
      chunk := bytes[pos..end];
      pos := end;
    }
  }
}
