/** The codec object, and the adapter that feeds it chunks of bytes with a receive timeout. */
module ByteAdapter {
  import opened Prelude
  import opened Bytes
  import opened Framing

  const RX_TIMEOUT: Time := 0.1

  // ---------------------------------------------------------------- the codec object

  class FrameCodec {
    var state: DecodeState
    var length: nat
    var index: nat
    var checksum: Byte
    var packet: Packet

    ghost function Model(): Decoder
      reads this
    {
      Decoder(state, length, index, checksum, packet)
    }

    constructor ()
      ensures Model() == START
    {
      state, length, index, checksum, packet := GetKW, 0, 0, 0, [];
    }

    /** Keyword and length, and the checksum over them. */
    static method WriteHeader(result: array<Byte>, n: nat) returns (sum: Byte, offset: nat)
      requires result.Length >= n + 4 && (n >= 128 ==> result.Length >= n + 5)
      modifies result
      ensures offset == |Header(n)| <= result.Length && forall i :: 0 <= i < offset ==> result[i] == Header(n)[i]
      ensures sum == Fold(KEYWORD, LengthBytes(n))
    {
      result[0] := KEYWORD;
      sum := XorByte(0, result[0]);
      XorZero(KEYWORD);
      if n < 128 {
        offset := 2;
        result[1] := n;
        FoldOne(sum, n);
        sum := XorByte(sum, result[1]);
      } else {
        offset := 3;
        result[1], result[2] := n / 128 % 128 + 128, n % 128;
        FoldTwo(sum, result[1], result[2]);
        sum := XorByte(XorByte(sum, result[1]), result[2]);
      }
    }

    static method AddToChecksum(start: Byte, data: Packet) returns (sum: Byte)
      ensures sum == Fold(start, data)
    {
      sum := start;
      var i := 0;
      while i < |data|
        invariant 0 <= i <= |data| && Fold(sum, data[i..]) == Fold(start, data)
      {
        assert data[i..][0] == data[i] && data[i..][1..] == data[i + 1..];
        sum := XorByte(sum, data[i]);
        i := i + 1;
      }
    }

    method EncodePacket(data: Packet) returns (result: array<Byte>)
      ensures fresh(result) && result[..] == Encode(data)
    {
      var n := |data|;
      result := new Byte[if n < 128 then n + 4 else n + 5](_ => 0);
      var sum, offset := WriteHeader(result, n);
      forall i | 0 <= i < n { result[offset + i] := data[i]; }
      sum := AddToChecksum(sum, data);
      result[n + offset] := sum;
      result[n + offset + 1] := FILLER;
      FrameIsWhole(result[..], data, offset, sum);
    }

    /** A payload byte for a packet of length zero is written outside the buffer; nothing is promised
        of the program from there on, and the object stays `Broken`. */
    method DecodeByte(b: Byte) returns (got: seq<Packet>)
      modifies this
      ensures Decoded(Model(), got) == Framing.DecodeByte(old(Model()), b)
    {
      got := [];
      match state
      case GetKW =>
        if b == KEYWORD {
          checksum := KEYWORD;
          state := GetLen;
          length := 0;
        }
      case GetLen =>
        checksum := XorByte(checksum, b);
        if b >= 128 {
          length := WrapSize((length + b % 128) * 128);
        } else {
          length := length + b;
          index := 0;
          state := GetData;
          packet := Resize(packet, length);
        }
      case GetData =>
        if index >= |packet| {
          state := Broken;
          return;
        }
        checksum := XorByte(checksum, b);
        packet := packet[index := b];
        index := index + 1;
        if index == length {
          state := GetChecksum;
        }
      case GetChecksum =>
        checksum := XorByte(checksum, b);
        state := GetFiller;
      case GetFiller =>
        if checksum == 0 && length <= |packet| {
          got := [packet[..length]];
        }
        state := GetKW;
      case Broken =>
    }

    method ResetState()
      modifies this
      ensures Model() == Reset(old(Model()))
    {
      if state != Broken {
        state := GetKW;
      }
    }

    method ReceiveData(data: seq<Byte>) returns (got: seq<Packet>)
      modifies this
      ensures Decoded(Model(), got) == DecodeAll(old(Model()), data)
    {
      got := [];
      var i := 0;
      while i < |data|
        invariant 0 <= i <= |data|
        invariant var r := DecodeAll(Model(), data[i..]);
                  DecodeAll(old(Model()), data) == Decoded(r.d, got + r.got)
      {
        DecodeFrom(Model(), data, i);
        var more := DecodeByte(data[i]);
        AppendAssociates(got, more, DecodeAll(Model(), data[i + 1..]).got);
        got := got + more;
        i := i + 1;
      }
      assert data[i..] == [] && got + [] == got;
    }
  }

  lemma FrameIsWhole(r: seq<Byte>, data: Packet, offset: nat, sum: Byte)
    requires offset == |Header(|data|)| && |r| == offset + |data| + 2
    requires forall i :: 0 <= i < offset ==> r[i] == Header(|data|)[i]
    requires forall i :: 0 <= i < |data| ==> r[offset + i] == data[i]
    requires r[offset + |data|] == sum && r[offset + |data| + 1] == FILLER
    ensures r == Frame(data, sum, FILLER)
  {
    assert forall i :: offset <= i < offset + |data| ==> r[i] == r[offset + (i - offset)];
  }

  lemma DecodeFrom(d: Decoder, data: seq<Byte>, i: nat)
    requires i < |data|
    ensures var r := Framing.DecodeByte(d, data[i]);
            var q := DecodeAll(r.d, data[i + 1..]);
            DecodeAll(d, data[i..]) == Decoded(q.d, r.got + q.got)
  {
    assert data[i..][0] == data[i] && data[i..][1..] == data[i + 1..];
  }

  // ---------------------------------------------------------------- the adapter

  datatype Adapter = Adapter(d: Decoder, last: Time)

  predicate InProgress(d: Decoder) { d.state != GetKW }

  function Reset(d: Decoder): Decoder { if d.state == Broken then d else d.(state := GetKW) }

  /** While a frame is coming in, every look at the clock also refreshes the timestamp. */
  function Checked(a: Adapter, now: Time): Adapter {
    if !InProgress(a.d) then a
    else Adapter(if now - a.last > RX_TIMEOUT then Reset(a.d) else a.d, now)
  }

  datatype Received = Received(a: Adapter, got: seq<Packet>)

  function Receive(a: Adapter, now: Time, bs: seq<Byte>): Received {
    var r := DecodeAll(Checked(a, now).d, bs);
    Received(Adapter(r.d, now), r.got)
  }

  /** Bytes from the driver, or a poll of whether a packet is coming in. */
  datatype Input = Chunk(t: Time, bs: seq<Byte>) | Poll(t: Time)

  function Take(a: Adapter, x: Input): Received {
    match x
    case Chunk(t, bs) => Receive(a, t, bs)
    case Poll(t) => Received(Checked(a, t), [])
  }

  function TakeAll(a: Adapter, xs: seq<Input>): Received
    decreases |xs|
  {
    if xs == [] then Received(a, []) else
    var r := Take(a, xs[0]);
    var q := TakeAll(r.a, xs[1..]);
    Received(q.a, r.got + q.got)
  }

  function BytesOf(xs: seq<Input>): seq<Byte> {
    if xs == [] then [] else (if xs[0].Chunk? then xs[0].bs else []) + BytesOf(xs[1..])
  }

  /** No input is more than the timeout after the one before. */
  predicate Prompt(prev: Time, xs: seq<Input>)
    decreases |xs|
  {
    xs != [] ==> xs[0].t - prev <= 0.1 && Prompt(xs[0].t, xs[1..])
  }

  /** Timeout resynchronisation: bytes that arrive later than the timeout after the last timestamp are decoded
      from a clean start, so every whole frame in them is delivered, whatever other bytes lie around the
      frames and whatever partial frame came before. */
  lemma LateChunkResynchronises(a: Adapter, now: Time, noise: seq<seq<Byte>>, ps: seq<Packet>, tail: seq<Byte>)
    requires a.d.state != Broken && now - a.last > 0.1 && AllSendable(ps)
    requires |noise| == |ps| + 1 && AllNoise(noise)
    ensures ps <= Receive(a, now, NoisyStream(noise, ps) + tail).got
    ensures NoKeyword(tail) ==> Receive(a, now, NoisyStream(noise, ps) + tail).got == ps
  {
    var d, s := Checked(a, now).d, NoisyStream(noise, ps);
    NoisyRoundTrip(d, noise, ps);
    DecodeConcat(d, s, tail);
    if NoKeyword(tail) {
      NoiseIsSkipped(DecodeAll(d, s).d, tail);
      AppendEmpty(ps);
    }
  }

  /** With no gap beyond the timeout, neither the chunking nor the polls can be seen: the result is
      that of decoding all bytes at once. */
  lemma {:induction false} ChunkingIsInvisible(a: Adapter, prev: Time, xs: seq<Input>)
    requires Prompt(prev, xs) && (InProgress(a.d) ==> a.last == prev)
    ensures var r, q := TakeAll(a, xs), DecodeAll(a.d, BytesOf(xs)); r.a.d == q.d && r.got == q.got
    decreases |xs|
  {
    if xs != [] {
      var x, r := xs[0], Take(a, xs[0]);
      ChunkingIsInvisible(r.a, x.t, xs[1..]);
      if x.Chunk? {
        DecodeConcat(a.d, x.bs, BytesOf(xs[1..]));
      } else {
        assert BytesOf(xs) == BytesOf(xs[1..]);
      }
    }
  }

  ghost predicate AllPolls(xs: seq<Input>) { forall i :: 0 <= i < |xs| ==> xs[i].Poll? }

  /** A frame in progress, followed by polls alone: it is kept if and only if no gap between looks at the
      clock exceeds the timeout, however long the line has been silent in all. */
  lemma {:induction false} PollsKeepOrDrop(a: Adapter, polls: seq<Input>)
    requires InProgress(a.d) && a.d.state != Broken && AllPolls(polls)
    ensures var r := TakeAll(a, polls);
            && r.got == []
            && r.a.d == (if Prompt(a.last, polls) then a.d else Reset(a.d))
            && (Prompt(a.last, polls) ==> r.a.last == LastLook(a.last, polls))
    decreases |polls|
  {
    if polls != [] {
      var a1 := Checked(a, polls[0].t);
      if InProgress(a1.d) { PollsKeepOrDrop(a1, polls[1..]); } else { IdlePolls(a1, polls[1..]); }
    }
  }

  /** The clock at the last input. */
  function LastLook(prev: Time, xs: seq<Input>): Time { if xs == [] then prev else xs[|xs| - 1].t }

  lemma {:induction false} IdlePolls(a: Adapter, polls: seq<Input>)
    requires !InProgress(a.d) && AllPolls(polls)
    ensures TakeAll(a, polls) == Received(a, [])
    decreases |polls|
  {
    if polls != [] { IdlePolls(a, polls[1..]); }
  }

  lemma {:induction false} PromptOneMore(prev: Time, xs: seq<Input>, x: Input)
    ensures Prompt(prev, xs + [x]) <==> Prompt(prev, xs) && x.t - LastLook(prev, xs) <= RX_TIMEOUT
    decreases |xs|
  {
    if xs == [] {
      assert (xs + [x])[1..] == [];
    } else {
      assert (xs + [x])[1..] == xs[1..] + [x];
      PromptOneMore(xs[0].t, xs[1..], x);
    }
  }

  /** What bytes after a partial frame and any number of polls are taken for: the rest of the old frame
      if and only if no gap between looks at the clock, polls included, exceeds the timeout;
      otherwise they are decoded from a clean start. */
  lemma NextChunkExactly(a: Adapter, polls: seq<Input>, t: Time, bs: seq<Byte>)
    requires InProgress(a.d) && a.d.state != Broken && AllPolls(polls)
    ensures Receive(TakeAll(a, polls).a, t, bs).got
            == DecodeAll(if Prompt(a.last, polls + [Chunk(t, bs)]) then a.d else Reset(a.d), bs).got
  {
    PollsKeepOrDrop(a, polls);
    PromptOneMore(a.last, polls, Chunk(t, bs));
  }

  /** So every whole frame after a partial one is delivered when some gap, before or after a poll, was
      too long; and polls that come often enough defeat the timeout. */
  lemma ResynchronisedAfterPolls(a: Adapter, polls: seq<Input>, t: Time, ps: seq<Packet>)
    requires InProgress(a.d) && a.d.state != Broken && AllPolls(polls) && AllSendable(ps)
    requires !Prompt(a.last, polls + [Chunk(t, Stream(ps))])
    ensures Receive(TakeAll(a, polls).a, t, Stream(ps)).got == ps
  {
    NextChunkExactly(a, polls, t, Stream(ps));
    StreamRoundTrip(Reset(a.d), ps);
  }

  class MsgToByteAdapter {
    const codec: FrameCodec
    var lastUpdate: Time

    ghost function Model(): Adapter
      reads this, codec
    {
      Adapter(codec.Model(), lastUpdate)
    }

    constructor ()
      ensures Model() == Adapter(START, 0.0) && fresh(codec)
    {
      codec := new FrameCodec();
      lastUpdate := 0.0;
    }

    method CheckTimeout(now: Time)
      modifies this, codec
      ensures Model() == Checked(old(Model()), now)
    {
      if codec.state != GetKW {
        if now - lastUpdate > RX_TIMEOUT {
          codec.ResetState();
        }
        lastUpdate := now;
      }
    }

    method PacketRxInProgress(now: Time) returns (busy: bool)
      modifies this, codec
      ensures Model() == Take(old(Model()), Poll(now)).a && busy == InProgress(Model().d)
    {
      CheckTimeout(now);
      busy := codec.state != GetKW;
    }

    method ReceiveBytes(now: Time, bytes: seq<Byte>) returns (got: seq<Packet>)
      modifies this, codec
      ensures Received(Model(), got) == Receive(old(Model()), now, bytes)
    {
      CheckTimeout(now);
      lastUpdate := now;
      got := codec.ReceiveData(bytes);
    }
  }
}
