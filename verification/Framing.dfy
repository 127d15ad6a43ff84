/** The frame format of the serial medium: keyword, length, payload, checksum, filler. */
module Framing {
  import opened Prelude
  import opened Bytes

  const KEYWORD: Byte := 0xfd
  const FILLER: Byte := 0xff
  const SIZE_T: nat := 0x1_0000_0000_0000_0000

  type Packet = seq<Byte>

  // ---------------------------------------------------------------- encoding

  /** One length byte below 128, else two; the high half is cut to seven bits. */
  function LengthBytes(n: nat): (r: seq<Byte>)
    ensures |r| == if n < 128 then 1 else 2
  {
    if n < 128 then [n] else [n / 128 % 128 + 128, n % 128]
  }

  function Header(n: nat): seq<Byte> { [KEYWORD] + LengthBytes(n) }

  /** The running exclusive-or of `s`, started at `c`. */
  function Fold(c: Byte, s: seq<Byte>): Byte
    decreases |s|
  {
    if s == [] then c else Fold(XorByte(c, s[0]), s[1..])
  }

  function Checksum(p: Packet): Byte { Fold(Fold(KEYWORD, LengthBytes(|p|)), p) }

  /** A frame with an arbitrary checksum and filler byte. */
  function Frame(p: Packet, checksum: Byte, filler: Byte): seq<Byte> {
    Header(|p|) + p + [checksum, filler]
  }

  function Encode(p: Packet): seq<Byte> { Frame(p, Checksum(p), FILLER) }

  function Stream(ps: seq<Packet>): seq<Byte> {
    if ps == [] then [] else Encode(ps[0]) + Stream(ps[1..])
  }

  /** Lengths that the encoder can express and the decoder can take. */
  predicate Sendable(p: Packet) { 1 <= |p| <= 16383 }

  // ---------------------------------------------------------------- decoding

  /** `Broken` stands for a write outside the packet buffer: the data state never checks for a
      length of zero. */
  datatype DecodeState = GetKW | GetLen | GetData | GetChecksum | GetFiller | Broken

  datatype Decoder = Decoder(state: DecodeState, length: nat, index: nat, checksum: Byte, packet: Packet)

  const START := Decoder(GetKW, 0, 0, 0, [])

  datatype Decoded = Decoded(d: Decoder, got: seq<Packet>)

  function Resize(p: Packet, n: nat): (r: Packet)
    ensures |r| == n
  {
    if n <= |p| then p[..n] else p + seq(n - |p|, _ => 0)
  }

  /** Lengths are kept in 64 bits. */
  function WrapSize(n: nat): nat { if n < SIZE_T then n else n % SIZE_T }

  /** The low seven bits of `length` are zero whenever a length byte is added to it. */
  function DecodeByte(d: Decoder, b: Byte): Decoded {
    match d.state
    case GetKW =>
      Decoded(if b == KEYWORD then d.(state := GetLen, length := 0, checksum := KEYWORD) else d, [])
    case GetLen =>
      var d1 := d.(checksum := XorByte(d.checksum, b));
      if b >= 128 then Decoded(d1.(length := WrapSize((d.length + b % 128) * 128)), [])
      else
        var n := d.length + b;
        Decoded(d1.(state := GetData, length := n, index := 0, packet := Resize(d.packet, n)), [])
    case GetData =>
      if d.index >= |d.packet| then Decoded(d.(state := Broken), []) else
      Decoded(d.(checksum := XorByte(d.checksum, b), packet := d.packet[d.index := b], index := d.index + 1,
                 state := if d.index + 1 == d.length then GetChecksum else GetData), [])
    case GetChecksum =>
      Decoded(d.(checksum := XorByte(d.checksum, b), state := GetFiller), [])
    case GetFiller =>
      Decoded(d.(state := GetKW), if d.checksum == 0 && d.length <= |d.packet| then [d.packet[..d.length]] else [])
    case Broken => Decoded(d, [])
  }

  function DecodeAll(d: Decoder, bs: seq<Byte>): Decoded
    decreases |bs|
  {
    if bs == [] then Decoded(d, []) else
    var r := DecodeByte(d, bs[0]);
    var q := DecodeAll(r.d, bs[1..]);
    Decoded(q.d, r.got + q.got)
  }

  // ---------------------------------------------------------------- one frame

  lemma {:induction false} DecodeConcat(d: Decoder, a: seq<Byte>, b: seq<Byte>)
    ensures var r := DecodeAll(d, a);
            var q := DecodeAll(r.d, b);
            DecodeAll(d, a + b) == Decoded(q.d, r.got + q.got)
    decreases |a|
  {
    if a == [] {
      assert a + b == b;
      var q := DecodeAll(d, b);
      assert [] + q.got == q.got;
    } else {
      var r := DecodeByte(d, a[0]);
      assert (a + b)[0] == a[0] && (a + b)[1..] == a[1..] + b;
      DecodeConcat(r.d, a[1..], b);
      var x := DecodeAll(r.d, a[1..]);
      AppendAssociates(r.got, x.got, DecodeAll(x.d, b).got);
    }
  }

  lemma DecodeOne(d: Decoder, b: Byte)
    ensures DecodeAll(d, [b]) == DecodeByte(d, b)
  {
    assert [b][1..] == [] && DecodeByte(d, b).got + [] == DecodeByte(d, b).got;
  }

  lemma DecodeTwo(d: Decoder, b: Byte, c: Byte)
    requires DecodeByte(d, b).got == []
    ensures DecodeAll(d, [b, c]) == DecodeByte(DecodeByte(d, b).d, c)
  {
    assert [b, c][1..] == [c];
    DecodeOne(DecodeByte(d, b).d, c);
    var g := DecodeByte(DecodeByte(d, b).d, c).got;
    assert [] + g == g;
  }

  lemma FoldOne(c: Byte, x: Byte)
    ensures Fold(c, [x]) == XorByte(c, x)
  {
    assert [x][1..] == [];
  }

  lemma FoldTwo(c: Byte, x: Byte, y: Byte)
    ensures Fold(c, [x, y]) == XorByte(XorByte(c, x), y)
  {
    assert [x, y][1..] == [y];
    FoldOne(XorByte(c, x), y);
  }

  lemma SplitLength(n: nat)
    ensures n / 128 % 128 * 128 + n % 128 == n % 16384
  {
  }

  /** In front of the payload, with the length read and the header added to the checksum `c`. */
  predicate AtPayload(d: Decoder, n: nat, c: Byte) {
    && d.state == GetData && d.length == n % 16384 == |d.packet| && d.index == 0
    && d.checksum == Fold(c, LengthBytes(n))
  }

  lemma HighLengthByte(d: Decoder, hi: Byte)
    requires d.state == GetLen && d.length == 0 && hi >= 128
    ensures DecodeByte(d, hi) == Decoded(d.(checksum := XorByte(d.checksum, hi), length := (hi - 128) * 128), [])
  {
    assert hi % 128 == hi - 128;
  }

  lemma LowLengthByte(d: Decoder, lo: Byte)
    requires d.state == GetLen && lo < 128
    ensures var r := DecodeByte(d, lo);
            && r.got == [] && r.d.state == GetData && r.d.length == d.length + lo == |r.d.packet|
            && r.d.index == 0 && r.d.checksum == XorByte(d.checksum, lo)
  {
  }

  lemma TwoLengthBytes(d: Decoder, hi: Byte, lo: Byte)
    requires d.state == GetLen && d.length == 0 && hi >= 128 && lo < 128
    ensures var r := DecodeAll(d, [hi, lo]);
            && r.got == [] && r.d.state == GetData && r.d.length == (hi - 128) * 128 + lo == |r.d.packet|
            && r.d.index == 0 && r.d.checksum == XorByte(XorByte(d.checksum, hi), lo)
  {
    HighLengthByte(d, hi);
    LowLengthByte(DecodeByte(d, hi).d, lo);
    DecodeTwo(d, hi, lo);
  }

  lemma LongLengthDecodes(d: Decoder, n: nat, hi: Byte, lo: Byte)
    requires d.state == GetLen && d.length == 0 && n >= 128 && LengthBytes(n) == [hi, lo] && hi >= 128 && lo < 128
    requires (hi - 128) * 128 + lo == n % 16384
    ensures var r := DecodeAll(d, LengthBytes(n)); r.got == [] && AtPayload(r.d, n, d.checksum)
  {
    TwoLengthBytes(d, hi, lo);
    FoldTwo(d.checksum, hi, lo);
  }

  lemma LengthParts(n: nat) returns (hi: Byte, lo: Byte)
    requires n >= 128
    ensures LengthBytes(n) == [hi, lo] && hi >= 128 && lo < 128 && (hi - 128) * 128 + lo == n % 16384
  {
    hi, lo := n / 128 % 128 + 128, n % 128;
    SplitLength(n);
  }

  lemma LengthDecodes(d: Decoder, n: nat)
    requires d.state == GetLen && d.length == 0
    ensures var r := DecodeAll(d, LengthBytes(n)); r.got == [] && AtPayload(r.d, n, d.checksum)
  {
    if n < 128 {
      DecodeOne(d, n);
      FoldOne(d.checksum, n);
    } else {
      var hi, lo := LengthParts(n);
      LongLengthDecodes(d, n, hi, lo);
    }
  }

  /** The header puts the decoder in front of the payload; its length is read modulo 2^14. */
  lemma HeaderDecodes(d: Decoder, n: nat)
    requires d.state == GetKW
    ensures var r := DecodeAll(d, Header(n)); r.got == [] && AtPayload(r.d, n, KEYWORD)
  {
    DecodeOne(d, KEYWORD);
    DecodeConcat(d, [KEYWORD], LengthBytes(n));
    LengthDecodes(DecodeByte(d, KEYWORD).d, n);
  }

  lemma {:induction false} PayloadDecodes(d: Decoder, p: Packet)
    requires d.state == GetData && |d.packet| == d.length == d.index + |p| && p != []
    ensures var r := DecodeAll(d, p);
            && r.got == [] && r.d.state == GetChecksum && r.d.length == d.length
            && r.d.packet == d.packet[..d.index] + p && r.d.checksum == Fold(d.checksum, p)
    decreases |p|
  {
    var d1 := DecodeByte(d, p[0]).d;
    assert d1.packet[..d1.index] == d.packet[..d.index] + [p[0]];
    if |p| == 1 {
      assert p[1..] == [];
      assert d1.packet == d.packet[..d.index] + p;
    } else {
      PayloadDecodes(d1, p[1..]);
      assert d.packet[..d.index] + [p[0]] + p[1..] == d.packet[..d.index] + p;
    }
  }

  lemma TrailerDecodes(d: Decoder, checksum: Byte, filler: Byte)
    requires d.state == GetChecksum && |d.packet| == d.length
    ensures var r := DecodeAll(d, [checksum, filler]);
            r.d.state == GetKW && r.got == if checksum == d.checksum then [d.packet] else []
  {
    XorCancels(d.checksum, checksum);
    DecodeTwo(d, checksum, filler);
    assert d.packet[..d.length] == d.packet;
  }

  /** In front of the trailer, with the whole of `p` in the buffer. */
  predicate AtTrailer(d: Decoder, p: Packet) {
    && d.state == GetChecksum && d.packet == p && d.length == |p| && d.checksum == Checksum(p)
  }

  lemma PayloadAfterHeader(d: Decoder, p: Packet)
    requires Sendable(p) && AtPayload(d, |p|, KEYWORD)
    ensures var r := DecodeAll(d, p); r.got == [] && AtTrailer(r.d, p)
  {
    PayloadDecodes(d, p);
    assert d.packet[..0] + p == p;
  }

  lemma BodyDecodes(d: Decoder, p: Packet)
    requires d.state == GetKW && Sendable(p)
    ensures var r := DecodeAll(d, Header(|p|) + p); r.got == [] && AtTrailer(r.d, p)
  {
    HeaderDecodes(d, |p|);
    PayloadAfterHeader(DecodeAll(d, Header(|p|)).d, p);
    DecodeConcat(d, Header(|p|), p);
  }

  /** A frame of expressible length is taken whole whatever its payload, and is reported exactly when
      its checksum byte is right; the filler does not matter. */
  lemma FrameOutcome(d: Decoder, p: Packet, checksum: Byte, filler: Byte)
    requires d.state == GetKW && Sendable(p)
    ensures var r := DecodeAll(d, Frame(p, checksum, filler));
            r.d.state == GetKW && r.got == if checksum == Checksum(p) then [p] else []
  {
    var body := Header(|p|) + p;
    BodyDecodes(d, p);
    TrailerDecodes(DecodeAll(d, body).d, checksum, filler);
    DecodeConcat(d, body, [checksum, filler]);
  }

  // ---------------------------------------------------------------- streams

  ghost predicate AllSendable(ps: seq<Packet>) { forall i :: 0 <= i < |ps| ==> Sendable(ps[i]) }

  /** Stream round trip: any list of packets, whatever bytes they contain, comes back in order. */
  lemma {:induction false} StreamRoundTrip(d: Decoder, ps: seq<Packet>)
    requires d.state == GetKW && AllSendable(ps)
    ensures var r := DecodeAll(d, Stream(ps)); r.d.state == GetKW && r.got == ps
    decreases |ps|
  {
    if ps != [] {
      var f := Encode(ps[0]);
      FrameOutcome(d, ps[0], Checksum(ps[0]), FILLER);
      StreamRoundTrip(DecodeAll(d, f).d, ps[1..]);
      DecodeConcat(d, f, Stream(ps[1..]));
      assert [ps[0]] + ps[1..] == ps;
    }
  }

  // ---------------------------------------------------------------- bytes between frames

  ghost predicate NoKeyword(bs: seq<Byte>) { forall i :: 0 <= i < |bs| ==> bs[i] != 0xfd }

  /** Bytes in front of a frame are skipped up to the keyword. */
  lemma {:induction false} NoiseIsSkipped(d: Decoder, bs: seq<Byte>)
    requires d.state == GetKW && NoKeyword(bs)
    ensures DecodeAll(d, bs) == Decoded(d, [])
    decreases |bs|
  {
    if bs != [] { NoiseIsSkipped(d, bs[1..]); }
  }

  /** Frames with other bytes before, between and after them: `noise` has one part more than there are packets. */
  function NoisyStream(noise: seq<seq<Byte>>, ps: seq<Packet>): seq<Byte>
    requires |noise| == |ps| + 1
    decreases |ps|
  {
    if ps == [] then noise[0] else noise[0] + Encode(ps[0]) + NoisyStream(noise[1..], ps[1..])
  }

  ghost predicate AllNoise(noise: seq<seq<Byte>>) { forall i :: 0 <= i < |noise| ==> NoKeyword(noise[i]) }

  /** Round trip on a line with noise: whatever bytes other than the keyword lie before, between and after the
      frames, exactly the packets are reported, in order, and the decoder is ready for the next frame. */
  lemma {:induction false} NoisyRoundTrip(d: Decoder, noise: seq<seq<Byte>>, ps: seq<Packet>)
    requires d.state == GetKW && |noise| == |ps| + 1 && AllNoise(noise) && AllSendable(ps)
    ensures var r := DecodeAll(d, NoisyStream(noise, ps)); r.d.state == GetKW && r.got == ps
    decreases |ps|
  {
    NoiseIsSkipped(d, noise[0]);
    if ps != [] {
      var f, rest := Encode(ps[0]), NoisyStream(noise[1..], ps[1..]);
      FrameOutcome(d, ps[0], Checksum(ps[0]), FILLER);
      DecodeConcat(d, noise[0], f);
      NoisyRoundTrip(DecodeAll(d, f).d, noise[1..], ps[1..]);
      DecodeConcat(d, noise[0] + f, rest);
      assert [] + [ps[0]] + ps[1..] == ps;
    }
  }

  // ---------------------------------------------------------------- damage

  lemma {:induction false} FoldInjective(c: Byte, c': Byte, s: seq<Byte>)
    ensures Fold(c, s) == Fold(c', s) ==> c == c'
    decreases |s|
  {
    if s != [] {
      FoldInjective(XorByte(c, s[0]), XorByte(c', s[0]), s[1..]);
      XorCommutes(c, s[0]);
      XorCommutes(c', s[0]);
      XorInjective(s[0], c, c');
    }
  }

  lemma {:induction false} FoldSeesChange(c: Byte, s: seq<Byte>, j: nat, b: Byte)
    requires j < |s| && b != s[j]
    ensures Fold(c, s[j := b]) != Fold(c, s)
    decreases |s|
  {
    if j == 0 {
      assert s[0 := b][1..] == s[1..];
      XorInjective(c, b, s[0]);
      FoldInjective(XorByte(c, b), XorByte(c, s[0]), s[1..]);
    } else {
      assert s[j := b][1..] == s[1..][j - 1 := b];
      FoldSeesChange(XorByte(c, s[0]), s[1..], j - 1, b);
    }
  }

  /** A frame whose payload or checksum has one byte changed. */
  function Damaged(p: Packet, j: nat, b: Byte): seq<Byte>
    requires j <= |p|
  {
    if j < |p| then Frame(p[j := b], Checksum(p), FILLER) else Frame(p, b, FILLER)
  }

  predicate Changes(p: Packet, j: nat, b: Byte)
    requires j <= |p|
  {
    b != if j < |p| then p[j] else Checksum(p)
  }

  lemma DamagedIsDropped(d: Decoder, p: Packet, j: nat, b: Byte)
    requires d.state == GetKW && Sendable(p) && j <= |p| && Changes(p, j, b)
    ensures var r := DecodeAll(d, Damaged(p, j, b)); r.d.state == GetKW && r.got == []
  {
    if j < |p| {
      FrameOutcome(d, p[j := b], Checksum(p), FILLER);
      FoldSeesChange(Fold(KEYWORD, LengthBytes(|p|)), p, j, b);
    } else {
      FrameOutcome(d, p, b, FILLER);
    }
  }

  /** Damage confinement: one changed payload or checksum byte drops exactly that packet. */
  lemma DamageIsConfined(d: Decoder, before: seq<Packet>, p: Packet, after: seq<Packet>, j: nat, b: Byte)
    requires d.state == GetKW && AllSendable(before) && Sendable(p) && AllSendable(after)
    requires j <= |p| && Changes(p, j, b)
    ensures var r := DecodeAll(d, Stream(before) + Damaged(p, j, b) + Stream(after));
            r.d.state == GetKW && r.got == before + after
  {
    var bad := Damaged(p, j, b);
    StreamRoundTrip(d, before);
    DamagedIsDropped(DecodeAll(d, Stream(before)).d, p, j, b);
    DecodeConcat(d, Stream(before), bad);
    var d2 := DecodeAll(d, Stream(before) + bad);
    assert d2.got == before + [] == before;
    StreamRoundTrip(d2.d, after);
    DecodeConcat(d, Stream(before) + bad, Stream(after));
  }

  // ---------------------------------------------------------------- the bytes of a frame

  lemma FoldConcat(c: Byte, a: seq<Byte>, b: seq<Byte>)
    ensures Fold(c, a + b) == Fold(Fold(c, a), b)
    decreases |a|
  {
    if a == [] {
      assert a + b == b;
    } else {
      assert (a + b)[0] == a[0] && (a + b)[1..] == a[1..] + b;
      FoldConcat(XorByte(c, a[0]), a[1..], b);
    }
  }

  lemma FrameParts(p: Packet)
    ensures var f, n := Encode(p), |Header(|p|)|;
            && |f| == n + |p| + 2 && f[..n] == Header(|p|) && f[n..n + |p|] == p
            && f[n + |p|] == Checksum(p) && f[n + |p| + 1] == FILLER
            && f[..|f| - 1] == Header(|p|) + p + [Checksum(p)]
  {
  }

  lemma HeaderBytes(n: nat)
    requires 1 <= n <= 16383
    ensures Header(n) == if n < 128 then [0xfd, n] else [0xfd, 128 + n / 128, n % 128]
  {
    assert n / 128 % 128 == n / 128;
  }

  /** The bytes of a frame on the wire: keyword, length in one or two bytes, payload, a byte that makes the
      exclusive-or of everything before the filler zero, and the filler. */
  lemma FrameLayout(p: Packet)
    requires Sendable(p)
    ensures var f, h := Encode(p), if |p| < 128 then [0xfd, |p|] else [0xfd, 128 + |p| / 128, |p| % 128];
            && |f| == |h| + |p| + 2 && f[..|h|] == h && f[|h|..|h| + |p|] == p && f[|f| - 1] == 0xff
            && Fold(0, f[..|f| - 1]) == 0
  {
    HeaderBytes(|p|);
    FrameParts(p);
    FrameSumsToZero(p);
  }

  lemma FrameSumsToZero(p: Packet)
    ensures Fold(0, Header(|p|) + p + [Checksum(p)]) == 0
  {
    var h := Header(|p|);
    FoldConcat(0, h + p, [Checksum(p)]);
    FoldConcat(0, h, p);
    FoldConcat(0, [KEYWORD], LengthBytes(|p|));
    FoldOne(0, KEYWORD);
    XorZero(KEYWORD);
    FoldOne(Checksum(p), Checksum(p));
    XorCancels(Checksum(p), Checksum(p));
  }

  /** A number written in groups of seven bits, the most significant first. */
  function SevenBits(v: nat, bs: seq<Byte>): nat
    decreases |bs|
  {
    if bs == [] then v else SevenBits(v * 128 + bs[0] % 128, bs[1..])
  }

  lemma {:induction false} SevenBitsGrow(v: nat, bs: seq<Byte>)
    ensures v <= SevenBits(v, bs)
    decreases |bs|
  {
    if bs != [] { SevenBitsGrow(v * 128 + bs[0] % 128, bs[1..]); }
  }

  lemma OneMoreGroup(d: Decoder, v: nat, b: Byte)
    requires d.state == GetLen && d.length == v * 128 && b >= 128 && (v * 128 + b % 128) * 128 < SIZE_T
    ensures var r := DecodeByte(d, b);
            r.got == [] && r.d.state == GetLen && r.d.length == (v * 128 + b % 128) * 128
  {
  }

  lemma LastGroup(d: Decoder, v: nat, b: Byte)
    requires d.state == GetLen && d.length == v * 128 && b < 128
    ensures var r := DecodeAll(d, [b]);
            r.got == [] && r.d.state == GetData && r.d.length == SevenBits(v, [b]) == |r.d.packet|
  {
    DecodeOne(d, b);
    assert [b][1..] == [];
  }

  lemma QuietHead(d: Decoder, b: Byte, rest: seq<Byte>)
    requires DecodeByte(d, b).got == []
    ensures DecodeAll(d, [b] + rest) == DecodeAll(DecodeByte(d, b).d, rest)
  {
    assert ([b] + rest)[1..] == rest;
    AppendEmpty(DecodeAll(DecodeByte(d, b).d, rest).got);
  }

  lemma SevenBitsHead(v: nat, b: Byte, rest: seq<Byte>)
    ensures SevenBits(v, [b] + rest) == SevenBits(v * 128 + b % 128, rest)
  {
    assert ([b] + rest)[1..] == rest;
  }

  /** Any number of length bytes is read, as long as the length fits the machine: all but the last have their
      top bit set. */
  lemma {:induction false} AnyLengthDecodes(d: Decoder, v: nat, bs: seq<Byte>, last: Byte)
    requires d.state == GetLen && d.length == v * 128 && last < 128
    requires forall i :: 0 <= i < |bs| ==> bs[i] >= 128
    requires SevenBits(v, bs) * 128 < SIZE_T
    ensures var r := DecodeAll(d, bs + [last]);
            r.got == [] && r.d.state == GetData && r.d.length == SevenBits(v, bs + [last]) == |r.d.packet|
    decreases |bs|
  {
    if bs == [] {
      assert bs + [last] == [last];
      LastGroup(d, v, last);
    } else {
      var v1, rest := v * 128 + bs[0] % 128, bs[1..] + [last];
      assert bs + [last] == [bs[0]] + rest;
      SevenBitsGrow(v1, bs[1..]);
      OneMoreGroup(d, v, bs[0]);
      QuietHead(d, bs[0], rest);
      SevenBitsHead(v, bs[0], rest);
      AnyLengthDecodes(DecodeByte(d, bs[0]).d, v1, bs[1..], last);
    }
  }

  // ---------------------------------------------------------------- where the round trip ends

  ghost predicate Sound(d: Decoder) {
    && (d.state == GetData ==> |d.packet| == d.length && d.index <= d.length)
    && (d.state == GetChecksum || d.state == GetFiller ==> |d.packet| == d.length)
  }

  /** Bytes of the packet in the making that were already consumed. */
  function InHand(d: Decoder): nat {
    match d.state
    case GetData => d.index
    case GetChecksum => d.length
    case GetFiller => d.length
    case _ => 0
  }

  /** No packet is longer than the bytes it was made from. */
  lemma {:induction false} ReportsAreShort(d: Decoder, bs: seq<Byte>)
    requires Sound(d)
    ensures forall q :: q in DecodeAll(d, bs).got ==> |q| <= InHand(d) + |bs|
    decreases |bs|
  {
    if bs != [] {
      ReportsAreShort(DecodeByte(d, bs[0]).d, bs[1..]);
    }
  }

  lemma EmptyPacketBreaks(d: Decoder)
    requires d.state == GetKW
    ensures DecodeAll(d, Encode([])).d.state == Broken && DecodeAll(d, Encode([])).got == []
  {
    HeaderDecodes(d, 0);
    var tail := [Checksum([]), FILLER];
    assert Encode([]) == Header(0) + tail;
    DecodeConcat(d, Header(0), tail);
    DecodeTwo(DecodeAll(d, Header(0)).d, Checksum([]), FILLER);
  }

  /** A decoder that expects `m` payload bytes reports nothing longer than `m` or than what follows. */
  lemma CutFrame(d: Decoder, data: Packet, x: Byte, y: Byte, rest: seq<Byte>)
    requires d.state == GetData && d.index == 0 && d.length == |d.packet| == |data| && data != []
    ensures forall q :: q in DecodeAll(d, data + [x, y] + rest).got ==> |q| <= |data| || |q| <= |rest|
  {
    PayloadDecodes(d, data);
    var d1 := DecodeAll(d, data).d;
    assert d1.packet == d.packet[..0] + data == data;
    TrailerDecodes(d1, x, y);
    DecodeConcat(d, data, [x, y]);
    DecodeConcat(d, data + [x, y], rest);
    ReportsAreShort(DecodeAll(d, data + [x, y]).d, rest);
  }

  lemma CutAt(s: seq<Byte>, m: nat)
    requires m + 2 <= |s|
    ensures s == s[..m] + [s[m], s[m + 1]] + s[m + 2..]
  {
  }

  /** The decoder takes the frame of a longer packet for a shorter one. */
  lemma LongPacketIsLost(d: Decoder, p: Packet)
    requires d.state == GetKW && |p| >= 16384
    ensures p !in DecodeAll(d, Encode(p)).got
  {
    var m := |p| % 16384;
    HeaderDecodes(d, |p|);
    var d1 := DecodeAll(d, Header(|p|)).d;
    var body := p + [Checksum(p), FILLER];
    assert Encode(p) == Header(|p|) + body;
    DecodeConcat(d, Header(|p|), body);
    if m == 0 {
      StuckWithoutLength(d1, body);
    } else {
      CutAt(body, m);
      CutFrame(d1, body[..m], body[m], body[m + 1], body[m + 2..]);
    }
  }

  lemma {:induction false} StuckWithoutLength(d: Decoder, bs: seq<Byte>)
    requires (d.state == GetData && d.index >= |d.packet|) || d.state == Broken
    ensures DecodeAll(d, bs).got == []
    decreases |bs|
  {
    if bs != [] { StuckWithoutLength(DecodeByte(d, bs[0]).d, bs[1..]); }
  }

  /** A packet survives its frame if and only if it has 1 to 16383 bytes. */
  lemma RoundTripExactly(d: Decoder, p: Packet)
    requires d.state == GetKW
    ensures DecodeAll(d, Encode(p)).got == [p] <==> Sendable(p)
  {
    if Sendable(p) {
      FrameOutcome(d, p, Checksum(p), FILLER);
    } else if p == [] {
      EmptyPacketBreaks(d);
    } else {
      LongPacketIsLost(d, p);
    }
  }
}
