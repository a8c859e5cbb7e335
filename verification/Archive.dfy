/** The market archive: records behind four-byte little-endian lengths, and the reader that
    streams them back until the file ends, breaks off or names an impossible length. */
module Archive {
  import opened Bits
  import opened Bytes

  type Record = seq<byte>

  const MAX_RECORD := 0x10_0000

  predicate ValidLength(n: nat) {
    0 < n <= MAX_RECORD
  }

  function Frame(r: Record): seq<byte> {
    Le(|r|, 4) + r
  }

  function Encode(rs: seq<Record>): seq<byte> {
    if rs == [] then [] else Frame(rs[0]) + Encode(rs[1..])
  }

  /** What the reader hands out, and whether it reports a clean end. */
  function Streamed(bytes: seq<byte>): (seq<Record>, bool)
    decreases |bytes|
  {
    if bytes == [] then ([], true)
    else if |bytes| < 4 then ([], false)
    else
      var n := FromLe(bytes[..4]);
      if !ValidLength(n) || |bytes| < 4 + n then ([], false)
      else
        var (rs, ok) := Streamed(bytes[4 + n..]);
        ([bytes[4..4 + n]] + rs, ok)
  }

  // ---- The two routines ----

  lemma PrefixBytes(n: nat)
    ensures Le(n, 4) == [Low(n), Low(ShiftedRight(n, 1)), Low(ShiftedRight(n, 2)), Low(ShiftedRight(n, 3))]
  {
    var a := n / 0x100;
    var b := a / 0x100;
    var c := b / 0x100;
    assert ShiftedRight(n, 1) == ShiftedRight(a, 0);
    assert ShiftedRight(n, 2) == ShiftedRight(a, 1) == ShiftedRight(b, 0);
    assert ShiftedRight(n, 3) == ShiftedRight(a, 2) == ShiftedRight(b, 1) == ShiftedRight(c, 0);
    assert Le(b, 2) == [Low(b)] + Le(c, 1) && Le(c, 1) == [Low(c)] + Le(c / 0x100, 0);
  }

  method WriteRecordLe(out: ByteStream, data: Record)
    requires out.Valid() && |data| < 0x1_0000_0000
    modifies out`bytes
    ensures out.Valid() && out.bytes == old(out.bytes) + Frame(data)
  {
    var size := |data|;
    var lp := new byte[4];
    PrefixBytes(size);
    lp[0] := Masked(size);
    lp[1] := Masked(ShiftedRight(size, 1));
    lp[2] := Masked(ShiftedRight(size, 2));
    lp[3] := Masked(ShiftedRight(size, 3));
    assert lp[..] == Le(size, 4);
    out.Write(lp[..]);
    out.Write(data);
  }

  function PrefixWord(b: seq<byte>): nat
    requires |b| == 4
  {
    Or(Or(Or(b[0], ShiftedLeft(b[1], 1)), ShiftedLeft(b[2], 2)), ShiftedLeft(b[3], 3))
  }

  lemma PrefixValue(b: seq<byte>)
    requires |b| == 4
    ensures PrefixWord(b) == FromLe(b)
  {
    Ranges();
    OrAbove(b[0], b[1], 1);
    OrAbove(b[0] + ShiftedLeft(b[1], 1), b[2], 2);
    OrAbove(b[0] + ShiftedLeft(b[1], 1) + ShiftedLeft(b[2], 2), b[3], 3);
    hide Or, Range;
    assert b[1..][1..] == b[2..] && b[2..][1..] == b[3..] && b[3..][1..] == [];
    assert FromLe(b[3..]) == b[3] && FromLe(b[2..]) == b[2] + 0x100 * FromLe(b[3..]);
    assert FromLe(b) == b[0] + 0x100 * FromLe(b[1..]) && FromLe(b[1..]) == b[1] + 0x100 * FromLe(b[2..]);
  }

  /** `delivered` lists the calls of the record callback. */
  method StreamArchive(input: ByteStream) returns (delivered: seq<Record>, ok: bool)
    requires input.Valid()
    modifies input`pos
    ensures (delivered, ok) == Streamed(old(input.Rest()))
  {
    hide PrefixWord, FromLe;
    ghost var all := input.Rest();
    delivered := [];
    while true
      invariant input.Valid()
      invariant delivered + Streamed(input.Rest()).0 == Streamed(all).0
      invariant Streamed(input.Rest()).1 == Streamed(all).1
      decreases |input.Rest()|
    {
      ghost var rest := input.Rest();
      assert delivered + [] == delivered;
      var lp := input.Read(4);
      if |lp| == 0 {
        break;
      }
      if |lp| != 4 {
        return delivered, false;
      }
      PrefixValue(lp);
      assert rest[..4] == lp && rest[4..] == input.Rest();
      var size := PrefixWord(lp);
      if size == 0 || size > MAX_RECORD {
        return delivered, false;
      }
      var buf := input.Read(size);
      if |buf| != size {
        return delivered, false;
      }
      assert rest[4..4 + size] == buf && rest[4 + size..] == input.Rest();
      ghost var tail := Streamed(input.Rest()).0;
      assert delivered + ([buf] + tail) == (delivered + [buf]) + tail;
      delivered := delivered + [buf];
    }
    ok := true;
  }

  // ---- Properties ----

  /** Records of 1 to 2^20 bytes. */
  ghost predicate AllValid(rs: seq<Record>) {
    forall i :: 0 <= i < |rs| ==> 1 <= |rs[i]| <= 1_048_576
  }

  /** The lowest byte of the length comes first. */
  lemma FrameLayout(r: Record)
    requires |r| < 0x1_0000_0000
    ensures var f := Frame(r);
            && |f| == 4 + |r| && f[4..] == r
            && f[0] + 0x100 * (f[1] as int) + 0x1_0000 * (f[2] as int) + 0x100_0000 * (f[3] as int) == |r|
  {
    var b := Le(|r|, 4);
    Ranges();
    LeRoundTrip(|r|, 4);
    hide Le, Range;
    assert b[1..][1..] == b[2..] && b[2..][1..] == b[3..] && b[3..][1..] == [];
    assert FromLe(b[3..]) == b[3] && FromLe(b[2..]) == b[2] + 0x100 * FromLe(b[3..]);
    assert FromLe(b) == b[0] + 0x100 * FromLe(b[1..]) && FromLe(b[1..]) == b[1] + 0x100 * FromLe(b[2..]);
  }

  lemma StreamsFrame(r: Record, tail: seq<byte>)
    requires ValidLength(|r|)
    ensures Streamed(Frame(r) + tail) == ([r] + Streamed(tail).0, Streamed(tail).1)
  {
    var bytes := Frame(r) + tail;
    assert bytes[..4] == Le(|r|, 4);
    Ranges();
    LeRoundTrip(|r|, 4);
    assert bytes[4..4 + |r|] == r && bytes[4 + |r|..] == tail;
  }

  lemma {:induction false} RoundTrip(rs: seq<Record>)
    requires AllValid(rs)
    ensures Streamed(Encode(rs)) == (rs, true)
  {
    if rs == [] {
    } else {
      RoundTrip(rs[1..]);
      StreamsFrame(rs[0], Encode(rs[1..]));
      assert rs == [rs[0]] + rs[1..];
    }
  }

  /** Number of records that lie entirely within the first `k` bytes. */
  function Whole(rs: seq<Record>, k: nat): nat {
    if rs == [] || k < |Frame(rs[0])| then 0 else 1 + Whole(rs[1..], k - |Frame(rs[0])|)
  }

  /** `Whole` is what its name says. */
  lemma {:induction false} WholeFits(rs: seq<Record>, k: nat)
    ensures Whole(rs, k) <= |rs|
    ensures |Encode(rs[..Whole(rs, k)])| <= k
    ensures Whole(rs, k) < |rs| ==> k < |Encode(rs[..Whole(rs, k) + 1])|
  {
    if rs != [] && k >= |Frame(rs[0])| {
      var m := Whole(rs[1..], k - |Frame(rs[0])|);
      WholeFits(rs[1..], k - |Frame(rs[0])|);
      assert rs[..m + 1][1..] == rs[1..][..m];
      if m < |rs| - 1 {
        assert rs[..m + 2][1..] == rs[1..][..m + 1];
      }
    } else if rs != [] {
      assert rs[..1][1..] == [];
      assert Encode(rs[..1]) == Frame(rs[0]) + Encode([]);
    }
  }

  lemma EncodeTake(rs: seq<Record>, m: nat)
    requires 1 <= m <= |rs|
    ensures rs[..m] == [rs[0]] + rs[1..][..m - 1]
    ensures |Encode(rs[..m])| == |Frame(rs[0])| + |Encode(rs[1..][..m - 1])|
  {
    assert rs[..m][1..] == rs[1..][..m - 1];
    hide Frame;
  }

  lemma StreamsPart(r: Record, k: nat)
    requires ValidLength(|r|) && k < |Frame(r)|
    ensures Streamed(Frame(r)[..k]) == ([], k == 0)
  {
    if k >= 4 {
      assert Frame(r)[..k][..4] == Le(|r|, 4);
      Ranges();
      LeRoundTrip(|r|, 4);
    }
  }

  lemma CutInFirst(rs: seq<Record>, k: nat)
    requires AllValid(rs) && rs != [] && k < |Frame(rs[0])|
    ensures k <= |Encode(rs)| && Streamed(Encode(rs)[..k]) == ([], k == 0)
  {
    StreamsPart(rs[0], k);
    assert Encode(rs)[..k] == Frame(rs[0])[..k];
  }

  lemma CutLater(rs: seq<Record>, k: nat)
    requires AllValid(rs) && rs != [] && |Frame(rs[0])| <= k <= |Encode(rs)|
    ensures var rest := Streamed(Encode(rs[1..])[..k - |Frame(rs[0])|]);
            Streamed(Encode(rs)[..k]) == ([rs[0]] + rest.0, rest.1)
  {
    var tail := Encode(rs[1..])[..k - |Frame(rs[0])|];
    StreamsFrame(rs[0], tail);
    assert Encode(rs)[..k] == Frame(rs[0]) + tail;
  }

  lemma {:induction false} CutAt(rs: seq<Record>, k: nat)
    requires AllValid(rs) && k <= |Encode(rs)| && Whole(rs, k) <= |rs|
    ensures Streamed(Encode(rs)[..k]) == (rs[..Whole(rs, k)], k == |Encode(rs[..Whole(rs, k)])|)
  {
    if rs == [] {
    } else if k < |Frame(rs[0])| {
      CutInFirst(rs, k);
      hide Streamed, Frame;
    } else {
      hide Streamed, Frame;
      var k', rest := k - |Frame(rs[0])|, rs[1..];
      WholeFits(rest, k');
      CutLater(rs, k);
      CutAt(rest, k');
      EncodeTake(rs, Whole(rest, k') + 1);
      hide Encode;
    }
  }

  lemma {:induction false} EncodeGrows(rs: seq<Record>, i: nat, j: nat)
    requires i <= |rs| && j <= |rs|
    ensures i <= j ==> |Encode(rs[..i])| <= |Encode(rs[..j])|
    decreases |rs|
  {
    if 0 < i <= j {
      EncodeTake(rs, i);
      EncodeTake(rs, j);
      EncodeGrows(rs[1..], i - 1, j - 1);
    }
  }

  /** An archive cut anywhere yields the records before the cut, and a clean end exactly when
      the cut is on a record boundary. */
  lemma {:induction false} CutAnywhere(rs: seq<Record>, k: nat)
    requires AllValid(rs) && k <= |Encode(rs)|
    ensures Whole(rs, k) <= |rs| && Streamed(Encode(rs)[..k]).0 == rs[..Whole(rs, k)]
    ensures Streamed(Encode(rs)[..k]).1 <==> exists m :: 0 <= m <= |rs| && k == |Encode(rs[..m])|
  {
    WholeFits(rs, k);
    CutAt(rs, k);
    if k == |Encode(rs[..Whole(rs, k)])| {
    } else {
      forall m | 0 <= m <= |rs| ensures k != |Encode(rs[..m])| {
        EncodeGrows(rs, m, Whole(rs, k));
        if Whole(rs, k) < m {
          EncodeGrows(rs, Whole(rs, k) + 1, m);
        }
      }
    }
  }

  /** Whatever the bytes: the records handed out are valid, and written back they are the
      part of the file they came from; a clean end means that they are all of it. */
  lemma {:induction false} StreamedIsFaithful(bytes: seq<byte>)
    ensures AllValid(Streamed(bytes).0)
    ensures Encode(Streamed(bytes).0) <= bytes
    ensures Streamed(bytes).1 <==> Encode(Streamed(bytes).0) == bytes
    decreases |bytes|
  {
    if |bytes| >= 4 {
      var n := FromLe(bytes[..4]);
      if ValidLength(n) && |bytes| >= 4 + n {
        var r, rest := bytes[4..4 + n], bytes[4 + n..];
        StreamedIsFaithful(rest);
        FromLeRoundTrip(bytes[..4]);
        assert bytes == Frame(r) + rest;
        var rs := Streamed(rest).0;
        assert ([r] + rs)[1..] == rs;
        if Encode([r] + rs) == bytes {
          assert (Frame(r) + Encode(rs))[4 + n..] == Encode(rs);
        }
      }
    }
  }
}
