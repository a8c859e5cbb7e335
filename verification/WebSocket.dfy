/** WebSocket frames (RFC 6455, section 5.2): the server's writer, and the reader that
    forwards client pings until a close, the end of the stream, or a frame over the limits. */
module WebSocket {
  import opened Bits
  import opened Bytes
  import opened Options

  const CLOSE := 0x8
  const PING := 0x9
  const PONG := 0xA

  const MAX_FRAME := 65535
  const MAX_CONTROL := 125
  const MAX_INT := 0x7FFF_FFFF_FFFF_FFFF

  // ---- Bit fields of the two header bytes ----

  function Opcode(b: byte): (r: byte)
    ensures r == b % 16
  {
    assert Pow2(4) == 16;
    AndMask(b, 4);
    And(b, 0x0F)
  }

  lemma SevenBits()
    ensures Pow2(7) == 128
  {
    assert Pow2(5) == 32;
  }

  predicate MaskBit(b: byte)
    ensures MaskBit(b) <==> b >= 128
  {
    SevenBits();
    AndTopBit(b, 7);
    And(b, 0x80) != 0
  }

  function ShortLength(b: byte): (r: byte)
    ensures r == b % 128
  {
    SevenBits();
    AndMask(b, 7);
    And(b, 0x7F)
  }

  function FirstByte(opcode: byte): (r: byte)
    ensures r == 128 + opcode % 16
  {
    SevenBits();
    OrCommutes(0x80, Opcode(opcode));
    OrShifted(Opcode(opcode), 1, 7);
    Or(0x80, Opcode(opcode))
  }

  function XorByte(a: byte, b: byte): byte {
    assert Pow2(8) == 256;
    XorBound(a, b, 8);
    Xor(a, b)
  }

  // ---- The writer ----

  function ServerHeader(opcode: byte, n: nat): (hdr: seq<byte>)
    requires n <= MAX_INT
  {
    if n <= 125 then [FirstByte(opcode), n]
    else if n <= 65535 then [FirstByte(opcode), 126] + Be(n, 2)
    else [FirstByte(opcode), 127] + Be(n, 8)
  }

  function ServerFrame(opcode: byte, payload: seq<byte>): seq<byte>
    requires |payload| <= MAX_INT
  {
    ServerHeader(opcode, |payload|) + payload
  }

  method PutBigEndian(hdr: array<byte>, at: nat, k: nat, n: nat)
    requires at + k <= hdr.Length
    modifies hdr
    ensures hdr[at..at + k] == Be(n, k)
    ensures forall i :: 0 <= i < hdr.Length && !(at <= i < at + k) ==> hdr[i] == old(hdr[i])
  {
    var rest := n;
    var j := k;
    while j > 0
      invariant 0 <= j <= k
      invariant Be(n, k) == Be(rest, j) + hdr[at + j..at + k]
      invariant forall i :: 0 <= i < hdr.Length && !(at <= i < at + k) ==> hdr[i] == old(hdr[i])
    {
      ghost var done := hdr[at + j..at + k];
      j := j - 1;
      hdr[at + j] := Masked(rest);
      assert hdr[at + j..at + k] == [Low(rest)] + done;
      rest := rest / 0x100;
      assert Be(rest, j) + ([hdr[at + j]] + done) == (Be(rest, j) + [hdr[at + j]]) + done;
    }
  }

  method MakeHeader(opcode: byte, n: nat) returns (hdr: array<byte>)
    requires n <= MAX_INT
    ensures fresh(hdr) && hdr[..] == ServerHeader(opcode, n)
  {
    hide FirstByte, Be;
    var first := FirstByte(opcode);
    if n <= 125 {
      hdr := new byte[] [first, n];
    } else if n <= 65535 {
      hdr := new byte[] [first, 126, 0, 0];
      PutBigEndian(hdr, 2, 2, n);
      assert hdr[..] == hdr[..2] + hdr[2..4];
    } else {
      hdr := new byte[10](_ => 0);
      hdr[0] := first;
      hdr[1] := 127;
      PutBigEndian(hdr, 2, 8, n);
      assert hdr[..] == hdr[..2] + hdr[2..10];
    }
  }

  method WriteFrame(conn: ByteStream, opcode: byte, payload: seq<byte>)
    requires conn.Valid() && |payload| <= MAX_INT
    modifies conn`bytes
    ensures conn.Valid() && conn.bytes == old(conn.bytes) + ServerFrame(opcode, payload)
  {
    hide ServerHeader;
    var n := |payload|;
    var hdr := MakeHeader(opcode, n);
    conn.Write(hdr[..]);
    if n == 0 {
      return;
    }
    conn.Write(payload);
  }

  // ---- Decoding what the writer sends ----

  datatype Message = Message(opcode: int, payload: seq<byte>)

  /** Header size and payload length, by the general rule for frames. */
  function ReadHeader(bytes: seq<byte>): Option<(nat, nat)> {
    if |bytes| < 2 then None
    else
      var n := bytes[1] % 128;
      if n < 126 then Some((2, n))
      else if n == 126 then if |bytes| < 4 then None else Some((4, FromBe(bytes[2..4])))
      else if |bytes| < 10 then None
      else Some((10, FromBe(bytes[2..10])))
  }

  /** A final, unmasked frame, and its size. */
  function DecodedOne(bytes: seq<byte>): (r: Option<(Message, nat)>)
    ensures r.Some? ==> 2 <= r.value.1 <= |bytes|
  {
    match ReadHeader(bytes)
    case None => None
    case Some((h, n)) =>
      if bytes[0] < 128 || bytes[0] >= 144 || bytes[1] >= 128 || |bytes| < h + n then None
      else Some((Message(bytes[0] % 16, bytes[h..h + n]), h + n))
  }

  /** All frames of a stream, or nothing when it is not a whole number of them. */
  function Decoded(bytes: seq<byte>): Option<seq<Message>>
    decreases |bytes|
  {
    if bytes == [] then Some([])
    else
      match DecodedOne(bytes)
      case None => None
      case Some((m, size)) =>
        match Decoded(bytes[size..])
        case None => None
        case Some(rest) => Some([m] + rest)
  }

  function Sent(ms: seq<Message>): seq<byte>
    requires forall m :: m in ms ==> 0 <= m.opcode < 16 && |m.payload| <= MAX_INT
  {
    if ms == [] then [] else ServerFrame(ms[0].opcode, ms[0].payload) + Sent(ms[1..])
  }

  lemma ShortLengthReadsBack(n: nat, bytes: seq<byte>)
    requires n <= 65535 && |bytes| >= 4
    ensures bytes[2..4] == Be(n, 2) ==> FromBe(bytes[2..4]) == n
  {
    Ranges();
    BeRoundTrip(n, 2);
  }

  lemma RangeEight()
    ensures Range(8) == 0x1_0000_0000_0000_0000
  {
    Ranges();
    assert Range(6) == 0x1_0000 * Range(4);
    assert Range(8) == 0x1_0000 * Range(6);
  }

  lemma LongLengthReadsBack(n: nat, bytes: seq<byte>)
    requires n <= MAX_INT && |bytes| >= 10
    ensures bytes[2..10] == Be(n, 8) ==> FromBe(bytes[2..10]) == n
  {
    RangeEight();
    BeRoundTrip(n, 8);
  }

  lemma HeaderReadsBack(opcode: byte, n: nat, tail: seq<byte>)
    requires opcode < 16 && n <= MAX_INT
    ensures var hdr := ServerHeader(opcode, n);
            && ReadHeader(hdr + tail) == Some((|hdr|, n))
            && hdr[0] == 128 + opcode && hdr[1] < 128
  {
    hide FirstByte;
    var bytes := ServerHeader(opcode, n) + tail;
    assert bytes[0] == FirstByte(opcode);
    if n > 65535 {
      LongLengthReadsBack(n, bytes);
    } else if n > 125 {
      ShortLengthReadsBack(n, bytes);
    }
    hide Be, FromBe;
  }

  lemma DecodesAfter(hdr: seq<byte>, m: Message, tail: seq<byte>)
    requires |hdr| >= 2 && hdr[0] == 128 + m.opcode && 0 <= m.opcode < 16 && hdr[1] < 128
    requires ReadHeader(hdr + (m.payload + tail)) == Some((|hdr|, |m.payload|))
    ensures DecodedOne(hdr + (m.payload + tail)) == Some((m, |hdr| + |m.payload|))
  {
    hide ReadHeader;
    var bytes := hdr + (m.payload + tail);
    assert bytes[|hdr|..|hdr| + |m.payload|] == m.payload;
  }

  /** Lengths are in network byte order. */
  lemma HeaderLayout(opcode: byte, n: nat)
    requires n <= MAX_INT
    ensures var h := ServerHeader(opcode, n);
            && h[0] == 128 + opcode % 16
            && (n <= 125 ==> |h| == 2 && h[1] == n)
            && (125 < n <= 65535 ==> |h| == 4 && h[1] == 126 && 256 * (h[2] as int) + h[3] == n)
            && (65535 < n ==> |h| == 10 && h[1] == 127 && FromHigh(h[2..]) == n)
  {
    Ranges();
    RangeEight();
    if n > 65535 {
      BeIsHigh(n, 8);
      assert ServerHeader(opcode, n)[2..] == Be(n, 8);
    } else if n > 125 {
      assert Be(n, 2) == Be(n / 256, 1) + [Low(n)] && Be(n / 256, 1) == Be(n / 256 / 256, 0) + [Low(n / 256)];
    }
    hide FirstByte, Opcode;
  }

  lemma FrameDecodes(m: Message, tail: seq<byte>)
    requires 0 <= m.opcode < 16 && |m.payload| <= MAX_INT
    ensures DecodedOne(ServerFrame(m.opcode, m.payload) + tail) ==
            Some((m, |ServerFrame(m.opcode, m.payload)|))
  {
    var hdr, rest := ServerHeader(m.opcode, |m.payload|), m.payload + tail;
    HeaderReadsBack(m.opcode, |m.payload|, rest);
    DecodesAfter(hdr, m, tail);
    hide ServerHeader, ReadHeader, DecodedOne;
    assert ServerFrame(m.opcode, m.payload) + tail == hdr + rest;
  }

  /** Any concatenation of the writer's frames decodes to the same opcodes and payloads. */
  lemma {:induction false} FramesReadBack(ms: seq<Message>)
    requires forall m :: m in ms ==> 0 <= m.opcode < 16 && |m.payload| <= MAX_INT
    ensures Decoded(Sent(ms)) == Some(ms)
  {
    hide ServerFrame, DecodedOne;
    if ms == [] {
    } else {
      var frame, tail := ServerFrame(ms[0].opcode, ms[0].payload), Sent(ms[1..]);
      FramesReadBack(ms[1..]);
      FrameDecodes(ms[0], tail);
      assert (frame + tail)[|frame|..] == tail;
      assert ms == [ms[0]] + ms[1..];
    }
  }

  // ---- The reader ----

  /** Why the reader stops. A length whose top bit is set is negative as a signed number, and
      no buffer of that size can be made. */
  datatype End = Eof | Closed | OverLimit | NegativeLength

  datatype Length = Short | Known(header: nat, signed: int)

  function Signed(n: nat): int {
    if n > MAX_INT then n - 0x1_0000_0000_0000_0000 else n
  }

  /** Bytes up to the end of the length field, and the length. */
  function ClientLength(bytes: seq<byte>): Length
    requires |bytes| >= 2
  {
    var n := ShortLength(bytes[1]);
    if n == 126 then if |bytes| < 4 then Short else Known(4, FromBe(bytes[2..4]))
    else if n == 127 then if |bytes| < 10 then Short else Known(10, Signed(FromBe(bytes[2..10])))
    else Known(2, n)
  }

  predicate Control(opcode: int) {
    opcode == CLOSE || opcode == PING || opcode == PONG
  }

  predicate TooLong(opcode: int, n: int) {
    n > MAX_FRAME || (Control(opcode) && n > MAX_CONTROL)
  }

  function Unmasked(payload: seq<byte>, mask: seq<byte>): (r: seq<byte>)
    requires |mask| == 4
    ensures |r| == |payload|
  {
    seq(|payload|, i requires 0 <= i < |payload| => XorByte(payload[i], mask[i % 4]))
  }

  /** One frame: why the reader stops there, or the opcode, the payload it keeps, and the
      bytes it has used up. */
  datatype Frame = Stop(end: End) | Got(opcode: byte, payload: seq<byte>, used: nat)

  function MaskedFrame(bytes: seq<byte>, opcode: byte, h: nat, n: int): Frame {
    if |bytes| < h + 4 then Stop(Eof)
    else if n < 0 then Stop(NegativeLength)
    else if |bytes| < h + 4 + n then Stop(Eof)
    else Got(opcode, Unmasked(bytes[h + 4..h + 4 + n], bytes[h..h + 4]), h + 4 + n)
  }

  function ReadFrame(bytes: seq<byte>): (f: Frame)
    ensures f.Got? ==> 2 <= f.used <= |bytes|
  {
    if |bytes| < 2 then Stop(Eof)
    else
      match ClientLength(bytes)
      case Short => Stop(Eof)
      case Known(h, n) =>
        var opcode := Opcode(bytes[0]);
        if TooLong(opcode, n) then Stop(OverLimit)
        else if MaskBit(bytes[1]) then MaskedFrame(bytes, opcode, h, n)
        else if n > 0 then if |bytes| < h + n then Stop(Eof) else Got(opcode, [], h + n)
        else Got(opcode, [], h)
  }

  /** The payloads offered to the writer, in order, and why the reader stops. */
  function ClientRead(bytes: seq<byte>): (seq<seq<byte>>, End)
    decreases |bytes|
  {
    match ReadFrame(bytes)
    case Stop(end) => ([], end)
    case Got(opcode, payload, used) =>
      if opcode == CLOSE then ([], Closed)
      else
        var (offers, end) := ClientRead(bytes[used..]);
        ((if opcode == PING then [payload] else []) + offers, end)
  }

  method Unmask(payload: array<byte>, mask: seq<byte>)
    requires |mask| == 4
    modifies payload
    ensures payload[..] == Unmasked(old(payload[..]), mask)
  {
    for i := 0 to payload.Length
      invariant forall k :: 0 <= k < i ==> payload[k] == XorByte(old(payload[k]), mask[k % 4])
      invariant forall k :: i <= k < payload.Length ==> payload[k] == old(payload[k])
    {
      payload[i] := XorByte(payload[i], mask[i % 4]);
    }
  }

  method ReadLength(rd: ByteStream, short: byte, ghost all: seq<byte>) returns (known: bool, h: nat, n: int)
    requires rd.Valid() && |all| >= 2 && rd.Rest() == all[2..] && short == ShortLength(all[1])
    modifies rd`pos
    ensures rd.Valid()
    ensures ClientLength(all) == if known then Known(h, n) else Length.Short
    ensures known ==> 2 <= h <= |all| && rd.Rest() == all[h..]
  {
    hide FromBe;
    known, h, n := true, 2, short;
    if short == 126 {
      var ext := rd.Read(2);
      if |ext| < 2 {
        return false, 2, 0;
      }
      assert all[2..4] == ext && all[4..] == rd.Rest();
      n, h := FromBe(ext), 4;
    } else if short == 127 {
      var ext := rd.Read(8);
      if |ext| < 8 {
        return false, 2, 0;
      }
      assert all[2..10] == ext && all[10..] == rd.Rest();
      n, h := Signed(FromBe(ext)), 10;
    }
  }

  method ReadMasked(rd: ByteStream, opcode: byte, h: nat, n: int, ghost all: seq<byte>) returns (f: Frame)
    requires rd.Valid() && h <= |all| && rd.Rest() == all[h..]
    modifies rd`pos
    ensures rd.Valid()
    ensures f == MaskedFrame(all, opcode, h, n)
    ensures f.Got? ==> rd.Rest() == all[f.used..]
  {
    hide Unmasked;
    var mask := rd.Read(4);
    if |mask| < 4 {
      return Stop(Eof);
    }
    assert all[h..h + 4] == mask && all[h + 4..] == rd.Rest();
    if n < 0 {
      return Stop(NegativeLength);
    }
    var body := rd.Read(n);
    if |body| < n {
      return Stop(Eof);
    }
    assert all[h + 4..h + 4 + n] == body && all[h + 4 + n..] == rd.Rest();
    var payload := new byte[n](i requires 0 <= i < |body| => body[i]);
    assert payload[..] == body;
    Unmask(payload, mask);
    f := Got(opcode, payload[..], h + 4 + n);
  }

  /** One turn of the loop, up to the dispatch on the opcode. */
  method ReadOne(rd: ByteStream, conn: ByteStream) returns (f: Frame)
    requires rd != conn && rd.Valid() && conn.Valid()
    modifies rd`pos, conn`bytes
    ensures rd.Valid() && conn.Valid()
    ensures f == ReadFrame(old(rd.Rest()))
    ensures f.Got? ==> rd.Rest() == old(rd.Rest())[f.used..]
    ensures conn.bytes == old(conn.bytes) + if f == Stop(OverLimit) then ServerFrame(CLOSE, []) else []
  {
    hide ClientLength, Unmasked, ServerFrame;
    assert conn.bytes + [] == conn.bytes;
    ghost var all := rd.Rest();
    var hdr := rd.Read(2);
    if |hdr| < 2 {
      return Stop(Eof);
    }
    assert all[0] == hdr[0] && all[1] == hdr[1] && all[2..] == rd.Rest();
    var opcode, masked := Opcode(hdr[0]), MaskBit(hdr[1]);
    var known, h, n := ReadLength(rd, ShortLength(hdr[1]), all);
    if !known {
      return Stop(Eof);
    }
    if TooLong(opcode, n) {
      WriteFrame(conn, CLOSE, []);
      return Stop(OverLimit);
    }
    if masked {
      f := ReadMasked(rd, opcode, h, n, all);
    } else if n > 0 {
      var body := rd.Read(n);
      if |body| < n {
        return Stop(Eof);
      }
      assert all[h + n..] == rd.Rest();
      f := Got(opcode, [], h + n);
    } else {
      f := Got(opcode, [], h);
    }
  }

  /** `offers` lists what is offered to the pong channel, whether or not it has room. */
  method ReadClient(rd: ByteStream, conn: ByteStream) returns (offers: seq<seq<byte>>, end: End)
    requires rd != conn && rd.Valid() && conn.Valid()
    modifies rd`pos, conn`bytes
    ensures (offers, end) == ClientRead(old(rd.Rest()))
    ensures conn.bytes == old(conn.bytes) + if end == OverLimit then ServerFrame(CLOSE, []) else []
  {
    hide ReadFrame, ServerFrame;
    ghost var all := rd.Rest();
    offers := [];
    while true
      invariant rd.Valid() && conn.Valid() && conn.bytes == old(conn.bytes)
      invariant offers + ClientRead(rd.Rest()).0 == ClientRead(all).0
      invariant ClientRead(rd.Rest()).1 == ClientRead(all).1
      decreases |rd.Rest()|
    {
      ghost var rest := rd.Rest();
      assert offers + [] == offers;
      var f := ReadOne(rd, conn);
      match f {
        case Stop(e) =>
          return offers, e;
        case Got(opcode, payload, _) =>
          if opcode == CLOSE {
            return offers, Closed;
          }
          ghost var later := ClientRead(rd.Rest()).0;
          if opcode == PING {
            assert offers + ([payload] + later) == (offers + [payload]) + later;
            offers := offers + [payload];
          } else {
            assert [] + later == later;
          }
      }
    }
  }

  // ---- What a client's frames lead to ----

  datatype Form = Seven | Sixteen | SixtyFour

  /** `first` carries the FIN and reserved bits and the opcode; `form` is the length form the
      client chose, `mask` its key, if it masks at all, and `body` the payload as sent. */
  datatype ClientFrame = ClientFrame(first: byte, form: Form, mask: Option<seq<byte>>, payload: seq<byte>,
                                     body: seq<byte>)

  /** Each bit sent is flipped where the key has a one, the key going round every four bytes
      (RFC 6455, section 5.3). */
  ghost predicate IsMasked(payload: seq<byte>, mask: seq<byte>, body: seq<byte>)
    requires |mask| == 4
  {
    && |body| == |payload|
    && forall i, k: nat :: 0 <= i < |payload| && k < 8 ==>
         (Bit(body[i], k) == 1 <==> Bit(payload[i], k) != Bit(mask[i % 4], k))
  }

  /** The length fits its form, with the top bit of the longest form clear. */
  ghost predicate WellFormed(f: ClientFrame) {
    && (f.mask.None? ==> f.body == f.payload)
    && (f.mask.Some? ==> |f.mask.value| == 4 && IsMasked(f.payload, f.mask.value, f.body))
    && match f.form
       case Seven => |f.payload| <= 125
       case Sixteen => |f.payload| <= 65535
       case SixtyFour => |f.payload| <= MAX_INT
  }

  function LengthField(form: Form, n: nat, masked: bool): seq<byte>
    requires form.Seven? ==> n <= 125
  {
    var flag := if masked then 128 else 0;
    match form
    case Seven => [flag + n]
    case Sixteen => [flag + 126] + Be(n, 2)
    case SixtyFour => [flag + 127] + Be(n, 8)
  }

  function Body(f: ClientFrame): seq<byte> {
    if f.mask.Some? then f.mask.value + f.body else f.body
  }

  function Head(f: ClientFrame): seq<byte>
    requires WellFormed(f)
  {
    [f.first] + LengthField(f.form, |f.payload|, f.mask.Some?)
  }

  function OnWire(f: ClientFrame): seq<byte>
    requires WellFormed(f)
  {
    Head(f) + Body(f)
  }

  function AllOnWire(fs: seq<ClientFrame>): seq<byte>
    requires forall i :: 0 <= i < |fs| ==> WellFormed(fs[i])
  {
    if fs == [] then [] else OnWire(fs[0]) + AllOnWire(fs[1..])
  }

  /** At most 65535 bytes, and at most 125 for a close, a ping or a pong (RFC 6455, section
      5.5). */
  predicate WithinLimits(f: ClientFrame) {
    var opcode := f.first % 16;
    |f.payload| <= 65535 && (0x8 <= opcode <= 0xA ==> |f.payload| <= 125)
  }

  predicate IsClose(f: ClientFrame) {
    f.first % 16 == 0x8
  }

  predicate IsPing(f: ClientFrame) {
    f.first % 16 == 0x9
  }

  predicate HasClose(fs: seq<ClientFrame>) {
    fs != [] && (IsClose(fs[0]) || HasClose(fs[1..]))
  }

  /** The payload as the reader keeps it: that of an unmasked frame is thrown away. */
  function KeptPayload(f: ClientFrame): seq<byte> {
    if f.mask.Some? then f.payload else []
  }

  /** What is offered for the pings before the first close. */
  function Offers(fs: seq<ClientFrame>): seq<seq<byte>> {
    if fs == [] || IsClose(fs[0]) then []
    else (if IsPing(fs[0]) then [KeptPayload(fs[0])] else []) + Offers(fs[1..])
  }

  /** The payloads of the pings before the first close. */
  function Pings(fs: seq<ClientFrame>): seq<seq<byte>> {
    if fs == [] || IsClose(fs[0]) then []
    else (if IsPing(fs[0]) then [fs[0].payload] else []) + Pings(fs[1..])
  }

  /** Every unmasked ping before the first close is empty. */
  predicate UnmaskedPingsEmpty(fs: seq<ClientFrame>) {
    fs == [] || IsClose(fs[0])
    || ((IsPing(fs[0]) && fs[0].mask.None? ==> fs[0].payload == []) && UnmaskedPingsEmpty(fs[1..]))
  }

  lemma ByteBits(a: byte, b: byte, k: nat)
    ensures Bit(XorByte(a, b), k) == 1 <==> Bit(a, k) != Bit(b, k)
  {
    XorBits(a, b, k);
  }

  /** Unmasking flips exactly the bits where the key has a one. */
  lemma UnmaskedBits(payload: seq<byte>, mask: seq<byte>)
    requires |mask| == 4
    ensures IsMasked(payload, mask, Unmasked(payload, mask))
  {
    forall i, k: nat | 0 <= i < |payload| && k < 8
      ensures Bit(Unmasked(payload, mask)[i], k) == 1 <==> Bit(payload[i], k) != Bit(mask[i % 4], k)
    {
      ByteBits(payload[i], mask[i % 4], k);
    }
  }

  lemma MaskingUndoes(payload: seq<byte>, mask: seq<byte>)
    requires |mask| == 4
    ensures Unmasked(Unmasked(payload, mask), mask) == payload
  {
    forall i | 0 <= i < |payload|
      ensures Unmasked(Unmasked(payload, mask), mask)[i] == payload[i]
    {
      XorInvolutive(payload[i], mask[i % 4]);
    }
  }

  lemma SameByte(a: byte, b: byte)
    requires forall k: nat :: k < 8 ==> (Bit(a, k) == 1 <==> Bit(b, k) == 1)
    ensures a == b
  {
    assert Pow2(8) == 256;
    forall k: nat | k < 8 ensures Bit(a, k) == Bit(b, k) {
      BitRange(a, k);
      BitRange(b, k);
    }
    BitsDetermine(a, b, 8);
  }

  /** Whatever a masked body was made of comes back. */
  lemma UnmaskingRestores(payload: seq<byte>, mask: seq<byte>, body: seq<byte>)
    requires |mask| == 4 && IsMasked(payload, mask, body)
    ensures Unmasked(body, mask) == payload
  {
    UnmaskedBits(body, mask);
    hide Unmasked, Bit;
    var out := Unmasked(body, mask);
    forall i | 0 <= i < |payload| ensures out[i] == payload[i] {
      forall k: nat | k < 8 ensures Bit(out[i], k) == 1 <==> Bit(payload[i], k) == 1 {
        BitRange(payload[i], k);
        BitRange(body[i], k);
        BitRange(mask[i % 4], k);
        assert Bit(body[i], k) == 1 <==> Bit(payload[i], k) != Bit(mask[i % 4], k);
        assert Bit(out[i], k) == 1 <==> Bit(body[i], k) != Bit(mask[i % 4], k);
      }
      SameByte(out[i], payload[i]);
    }
  }

  lemma LengthReadsBack(f: ClientFrame, tail: seq<byte>)
    requires WellFormed(f)
    ensures |Head(f)| >= 2 && Head(f)[0] == f.first && (Head(f)[1] >= 128 <==> f.mask.Some?)
    ensures ClientLength(Head(f) + tail) == Known(|Head(f)|, |f.payload|)
  {
    hide Be, FromBe, ShortLength;
    var n, bytes := |f.payload|, Head(f) + tail;
    assert bytes[1] == LengthField(f.form, n, f.mask.Some?)[0];
    match f.form
    case Seven =>
    case Sixteen => ShortLengthReadsBack(n, bytes);
    case SixtyFour => LongLengthReadsBack(n, bytes);
  }

  lemma MaskedPart(head: seq<byte>, mask: seq<byte>, body: seq<byte>, tail: seq<byte>)
    requires |mask| == 4
    ensures forall opcode :: MaskedFrame(head + (mask + body + tail), opcode, |head|, |body|) ==
                             Got(opcode, Unmasked(body, mask), |head| + 4 + |body|)
  {
    hide Unmasked;
    var bytes := head + (mask + body + tail);
    assert bytes[|head|..|head| + 4] == mask;
    assert bytes[|head| + 4..|head| + 4 + |body|] == body;
  }

  /** A frame in any length form is read whole, or refused exactly when it is over the
      limits. */
  lemma FrameReadsBack(f: ClientFrame, tail: seq<byte>)
    requires WellFormed(f)
    ensures ReadFrame(OnWire(f) + tail) ==
            if WithinLimits(f) then Got(f.first % 16, KeptPayload(f), |OnWire(f)|) else Stop(OverLimit)
  {
    hide Head, Unmasked, ClientLength, MaskBit, Opcode, Bit;
    var bytes, rest := OnWire(f) + tail, Body(f) + tail;
    assert bytes == Head(f) + rest;
    LengthReadsBack(f, rest);
    assert bytes[0] == f.first && bytes[1] == Head(f)[1];
    if WithinLimits(f) && f.mask.Some? {
      UnmaskingRestores(f.payload, f.mask.value, f.body);
      MaskedPart(Head(f), f.mask.value, f.body, tail);
    }
  }

  ghost predicate Acceptable(fs: seq<ClientFrame>) {
    forall i :: 0 <= i < |fs| ==> WellFormed(fs[i]) && WithinLimits(fs[i])
  }

  ghost predicate AllMasked(fs: seq<ClientFrame>) {
    forall i :: 0 <= i < |fs| ==> fs[i].mask.Some?
  }

  lemma ReadStep(f: ClientFrame, rest: seq<byte>)
    requires WellFormed(f) && WithinLimits(f)
    ensures ClientRead(OnWire(f) + rest) ==
            if IsClose(f) then ([], Closed)
            else ((if IsPing(f) then [KeptPayload(f)] else []) + ClientRead(rest).0, ClientRead(rest).1)
  {
    FrameReadsBack(f, rest);
    assert (OnWire(f) + rest)[|OnWire(f)|..] == rest;
    hide OnWire, ReadFrame, KeptPayload;
  }

  /** Frames within the limits, masked or not, in any length form, make the reader offer one
      payload for each ping before the first close, that of an unmasked one empty, and stop
      at that close; without a close it goes on with whatever follows. */
  lemma {:induction false} FramesAreOffered(fs: seq<ClientFrame>, tail: seq<byte>)
    requires Acceptable(fs)
    ensures ClientRead(AllOnWire(fs) + tail) ==
            if HasClose(fs) then (Offers(fs), Closed)
            else (Offers(fs) + ClientRead(tail).0, ClientRead(tail).1)
    decreases |fs|
  {
    hide ClientRead, WellFormed, WithinLimits, OnWire, KeptPayload;
    if fs == [] {
      assert AllOnWire(fs) + tail == tail;
      assert [] + ClientRead(tail).0 == ClientRead(tail).0;
    } else {
      var first, rest := fs[0], AllOnWire(fs[1..]) + tail;
      ReadStep(first, rest);
      assert AllOnWire(fs) + tail == OnWire(first) + rest;
      if !IsClose(first) {
        FramesAreOffered(fs[1..], tail);
        var head := if IsPing(first) then [KeptPayload(first)] else [];
        assert head + (Offers(fs[1..]) + ClientRead(tail).0) == (head + Offers(fs[1..])) + ClientRead(tail).0;
      }
    }
  }

  /** The offers are the pings' own payloads exactly when every unmasked ping before the
      first close is empty. */
  lemma {:induction false} OffersArePings(fs: seq<ClientFrame>)
    ensures |Offers(fs)| == |Pings(fs)|
    ensures Offers(fs) == Pings(fs) <==> UnmaskedPingsEmpty(fs)
    decreases |fs|
  {
    if fs == [] {
    } else {
      OffersArePings(fs[1..]);
      var a, b := Offers(fs[1..]), Pings(fs[1..]);
      if IsPing(fs[0]) {
        assert [KeptPayload(fs[0])] + a == [fs[0].payload] + b <==> KeptPayload(fs[0]) == fs[0].payload && a == b by {
          assert ([KeptPayload(fs[0])] + a)[1..] == a && ([fs[0].payload] + b)[1..] == b;
        }
      } else {
        assert [] + a == a && [] + b == b;
      }
    }
  }

  lemma {:induction false} MaskedLosesNothing(fs: seq<ClientFrame>)
    requires AllMasked(fs)
    ensures UnmaskedPingsEmpty(fs)
    decreases |fs|
  {
    if fs == [] {
    } else {
      MaskedLosesNothing(fs[1..]);
    }
  }

  /** Masked frames within the limits: exactly the ping payloads before the first close. */
  lemma PingsAreOffered(fs: seq<ClientFrame>, tail: seq<byte>)
    requires Acceptable(fs) && AllMasked(fs)
    ensures ClientRead(AllOnWire(fs) + tail) ==
            if HasClose(fs) then (Pings(fs), Closed)
            else (Pings(fs) + ClientRead(tail).0, ClientRead(tail).1)
  {
    FramesAreOffered(fs, tail);
    MaskedLosesNothing(fs);
    OffersArePings(fs);
    hide Acceptable, AllMasked, AllOnWire, Offers, Pings, ClientRead, UnmaskedPingsEmpty;
  }

  /** The first frame over the limits ends the reading, whatever follows it. */
  lemma OverLimitStops(fs: seq<ClientFrame>, big: ClientFrame, tail: seq<byte>)
    requires Acceptable(fs)
    requires WellFormed(big) && !WithinLimits(big)
    ensures ClientRead(AllOnWire(fs) + (OnWire(big) + tail)) ==
            (Offers(fs), if HasClose(fs) then Closed else OverLimit)
  {
    FramesAreOffered(fs, OnWire(big) + tail);
    FrameReadsBack(big, tail);
    assert Offers(fs) + [] == Offers(fs);
  }

  lemma TopBit(bs: seq<byte>)
    requires |bs| == 8
    ensures FromBe(bs) > MAX_INT <==> bs[0] >= 128
    ensures FromBe(bs) <= 2 * MAX_INT + 1
  {
    Ranges();
    RangeEight();
    FromBeFirst(bs);
    FromBeRoundTrip(bs[1..]);
    FromBeRoundTrip(bs);
    assert Range(8) == 256 * Range(7);
    hide FromBe, Range;
    assert bs[0] >= 128 ==> bs[0] * Range(7) >= 128 * Range(7);
    assert bs[0] <= 127 ==> bs[0] * Range(7) <= 127 * Range(7);
  }

  /** The header of a masked frame in the longest form with the top length bit set, with its
      mask: exactly these bytes give a negative length. Unmasked, such a frame passes for an
      empty one. */
  lemma NegativeLengthIs(bytes: seq<byte>)
    ensures ReadFrame(bytes) == Stop(NegativeLength) <==> |bytes| >= 14 && bytes[1] == 255 && bytes[2] >= 128
    ensures |bytes| >= 10 && bytes[1] == 127 && bytes[2] >= 128 ==>
              ReadFrame(bytes) == Got(bytes[0] % 16, [], 10)
  {
    if |bytes| >= 10 {
      TopBit(bytes[2..10]);
      assert bytes[2..10][0] == bytes[2];
    }
    hide FromBe, Unmasked;
  }

  /** After frames within the limits and without a close, such a header ends the reading
      with what has been offered so far. */
  lemma NegativeLengthStops(fs: seq<ClientFrame>, bytes: seq<byte>)
    requires Acceptable(fs) && |bytes| >= 14 && bytes[1] == 255 && bytes[2] >= 128
    ensures ClientRead(AllOnWire(fs) + bytes) == (Offers(fs), if HasClose(fs) then Closed else NegativeLength)
  {
    FramesAreOffered(fs, bytes);
    NegativeLengthIs(bytes);
    assert Offers(fs) + [] == Offers(fs);
    hide ReadFrame, Offers, AllOnWire, Acceptable;
  }

  function Pongs(payloads: seq<seq<byte>>): seq<Message> {
    seq(|payloads|, i requires 0 <= i < |payloads| => Message(PONG, payloads[i]))
  }

  lemma {:induction false} OffersAreShort(fs: seq<ClientFrame>)
    requires Acceptable(fs)
    ensures forall p :: p in Offers(fs) ==> |p| <= 125
    decreases |fs|
  {
    if fs == [] {
    } else {
      OffersAreShort(fs[1..]);
      assert WithinLimits(fs[0]);
    }
  }

  /** Acceptable frames alone on the connection. */
  lemma AllOffered(fs: seq<ClientFrame>)
    requires Acceptable(fs)
    ensures ClientRead(AllOnWire(fs)).0 == Offers(fs)
  {
    assert ClientRead([]) == ([], Eof);
    FramesAreOffered(fs, []);
    hide *;
    assert AllOnWire(fs) + [] == AllOnWire(fs) && Offers(fs) + [] == Offers(fs);
  }

  /** There and back: the pongs written for everything that was offered decode to the
      offered payloads, in order; for masked frames these are the pings' own. */
  lemma PongsEchoPings(fs: seq<ClientFrame>)
    requires Acceptable(fs)
    ensures var offers := ClientRead(AllOnWire(fs)).0;
            && (forall m :: m in Pongs(offers) ==> |m.payload| <= 125)
            && |Pongs(offers)| == |offers|
            && (forall i :: 0 <= i < |offers| ==> Pongs(offers)[i] == Message(0xA, offers[i]))
            && Decoded(Sent(Pongs(offers))) == Some(Pongs(Offers(fs)))
            && (AllMasked(fs) ==> Offers(fs) == Pings(fs))
  {
    hide ClientRead, AllOnWire, Acceptable, Offers, Decoded, Sent, AllMasked;
    AllOffered(fs);
    OffersAreShort(fs);
    OffersArePings(fs);
    if AllMasked(fs) {
      MaskedLosesNothing(fs);
    }
    FramesReadBack(Pongs(Offers(fs)));
  }
}
