/** The packets of the serial protocol and their byte layout. */
module Protocol {
  import opened Prelude
  import opened Bytes

  type UniqueId = s: seq<Byte> | |s| == 8 witness [0, 0, 0, 0, 0, 0, 0, 0]
  type Mac = s: seq<Byte> | |s| == 6 witness [0, 0, 0, 0, 0, 0]
  type Crc32 = s: seq<Byte> | |s| == 4 witness [0, 0, 0, 0]

  /** Which of the three receivers a data packet is for; 0 is the illegal type. */
  type Channel = Byte

  datatype Msg =
    | GrantToken(receiver: Address)
    | ReturnToken(src: Address)
    | MasterStarted
    | MasterEnded
    | SendPacket(channel: Channel, dest: Address, src: Address, payload: seq<Byte>)
    | MacUpdate(dest: Address, src: Address, near: Address, mac: Mac)
    | AddressDiscovery(randomDelay: Byte, randomHoldOff: Byte)
    | AddressRequest(id: UniqueId, channel: Channel, crc: Crc32)
    | AddressReply(given: Address, id: UniqueId)

  function Serialize(m: Msg): (r: seq<Byte>)
    ensures |r| >= 1
  {
    match m
    case GrantToken(a) => [0, a]
    case ReturnToken(a) => [1, a]
    case MasterStarted => [2]
    case MasterEnded => [3]
    case SendPacket(ch, dest, src, payload) => [4, ch, dest, src] + payload
    case MacUpdate(dest, src, near, mac) => [5, dest, src, near] + mac
    case AddressDiscovery(delay, holdOff) => [6, delay, holdOff]
    case AddressRequest(id, ch, crc) => [7] + id + [ch] + crc
    case AddressReply(a, id) => [8, a] + id
  }

  /** Size of the header that a message type needs; unknown types have none. */
  function HeaderSize(cmd: Byte): Option<nat> {
    if cmd == 0 || cmd == 1 then Some(2)
    else if cmd == 2 || cmd == 3 then Some(1)
    else if cmd == 4 then Some(4)
    else if cmd == 5 then Some(10)
    else if cmd == 6 then Some(3)
    else if cmd == 7 then Some(14)
    else if cmd == 8 then Some(10)
    else None
  }

  predicate LongEnough(p: seq<Byte>) {
    |p| >= 1 && HeaderSize(p[0]).Some? && |p| >= HeaderSize(p[0]).value
  }

  /** The receiver's view of raw bytes. Bytes beyond a fixed-size header are not looked at. */
  function Parse(p: seq<Byte>): (r: Option<Msg>)
    ensures r.Some? <==> LongEnough(p)
  {
    if !LongEnough(p) then None
    else if p[0] == 0 then Some(GrantToken(p[1]))
    else if p[0] == 1 then Some(ReturnToken(p[1]))
    else if p[0] == 2 then Some(MasterStarted)
    else if p[0] == 3 then Some(MasterEnded)
    else if p[0] == 4 then Some(SendPacket(p[1], p[2], p[3], p[4..]))
    else if p[0] == 5 then Some(MacUpdate(p[1], p[2], p[3], p[4..10]))
    else if p[0] == 6 then Some(AddressDiscovery(p[1], p[2]))
    else if p[0] == 7 then Some(AddressRequest(p[1..9], p[9], p[10..14]))
    else Some(AddressReply(p[1], p[2..10]))
  }

  lemma RequestLayout(id: UniqueId, ch: Channel, crc: Crc32)
    ensures var p := [7] + id + [ch] + crc;
            |p| == 14 && p[0] == 7 && p[1..9] == id && p[9] == ch && p[10..14] == crc
  {
    var p, q := [7] + id + [ch] + crc, [7] + id + [ch];
    assert p[..10] == q && p[10..14] == crc by { AppendParts(q, crc); }
    assert q[..9] == [7] + id by { AppendParts([7] + id, [ch]); }
    assert ([7] + id)[1..] == id by { AppendParts([7], id); }
    assert p[1..9] == p[..10][..9][1..];
  }

  /** Every message survives its byte layout. */
  lemma ParseSerialize(m: Msg)
    ensures Parse(Serialize(m)) == Some(m)
  {
    var p := Serialize(m);
    match m
    case SendPacket(ch, dest, src, payload) => AppendParts([4, ch, dest, src], payload);
    case MacUpdate(dest, src, near, mac) =>
      AppendParts([5, dest, src, near], mac);
      assert p[4..10] == p[4..];
    case AddressRequest(id, ch, crc) => RequestLayout(id, ch, crc);
    case AddressReply(a, id) =>
      AppendParts([8, a], id);
      assert p[2..10] == p[2..];
    case _ =>
  }

  /** Where each field of a message lies in its bytes. */
  lemma ByteLayout(m: Msg)
    ensures var p := Serialize(m);
            match m
            case GrantToken(a) => |p| == 2 && p[0] == 0 && p[1] == a
            case ReturnToken(a) => |p| == 2 && p[0] == 1 && p[1] == a
            case MasterStarted => |p| == 1 && p[0] == 2
            case MasterEnded => |p| == 1 && p[0] == 3
            case SendPacket(ch, dest, src, payload) =>
              |p| == 4 + |payload| && p[0] == 4 && p[1] == ch && p[2] == dest && p[3] == src && p[4..] == payload
            case MacUpdate(dest, src, near, mac) =>
              |p| == 10 && p[0] == 5 && p[1] == dest && p[2] == src && p[3] == near && p[4..] == mac
            case AddressDiscovery(delay, holdOff) => |p| == 3 && p[0] == 6 && p[1] == delay && p[2] == holdOff
            case AddressRequest(id, ch, crc) => |p| == 14 && p[0] == 7 && p[1..9] == id && p[9] == ch && p[10..] == crc
            case AddressReply(a, id) => |p| == 10 && p[0] == 8 && p[1] == a && p[2..] == id
  {
    match m
    case SendPacket(ch, dest, src, payload) => AppendParts([4, ch, dest, src], payload);
    case MacUpdate(dest, src, near, mac) => AppendParts([5, dest, src, near], mac);
    case AddressRequest(id, ch, crc) =>
      RequestLayout(id, ch, crc);
      assert Serialize(m)[10..] == Serialize(m)[10..14];
    case AddressReply(a, id) => AppendParts([8, a], id);
    case _ =>
  }

  /** A packet is long enough if and only if it is of one of the nine types and holds that type's header. */
  lemma SizesExactly(p: seq<Byte>)
    requires p != []
    ensures LongEnough(p) <==> p[0] < 9 && |p| >= [2, 2, 1, 1, 4, 10, 3, 14, 10][p[0]]
  {
  }
}
