// The frames that edge connections exchange over TCP, as byte strings.

module Frames {
  import opened Messages

  // 16 bytes of id and one of codec; in a frame the length of the payload follows in four bytes, most
  // significant first.
  const ID_SIZE := 16
  const HEADER_SIZE := 17
  const EXTENDED_HEADER_SIZE := 21
  const TWO_TO_THE_32 := 0x1_0000_0000

  datatype PacketHeader = PacketHeader(id: Bytes, codec: byte)

  datatype Packet = Packet(header: PacketHeader, payload: Bytes) {
    predicate WellFormed() {
      |header.id| == ID_SIZE && |payload| < TWO_TO_THE_32
    }
  }

  function ToBigEndian(n: nat): (b: Bytes)
    requires n < TWO_TO_THE_32
    ensures |b| == 4
  {
    [(n / 0x1000000) as byte, (n / 0x10000 % 0x100) as byte, (n / 0x100 % 0x100) as byte, (n % 0x100) as byte]
  }

  function FromBigEndian(b: Bytes): (n: nat)
    requires |b| == 4
    ensures n < TWO_TO_THE_32
  {
    ((b[0] as nat * 0x100 + b[1] as nat) * 0x100 + b[2] as nat) * 0x100 + b[3] as nat
  }

  lemma BigEndianRoundTrip(n: nat)
    requires n < TWO_TO_THE_32
    ensures FromBigEndian(ToBigEndian(n)) == n
  {
    var a := n / 0x100;
    var b := a / 0x100;
    assert n == a * 0x100 + n % 0x100;
    assert a == b * 0x100 + a % 0x100;
    assert b == b / 0x100 * 0x100 + b % 0x100;
    assert n / 0x10000 == b && n / 0x1000000 == b / 0x100;
  }

  lemma BigEndianUnique(b: Bytes)
    requires |b| == 4
    ensures ToBigEndian(FromBigEndian(b)) == b
  {
    var n := FromBigEndian(b);
    assert n / 0x100 == (b[0] as nat * 0x100 + b[1] as nat) * 0x100 + b[2] as nat;
    assert n / 0x10000 == b[0] as nat * 0x100 + b[1] as nat;
    assert n / 0x1000000 == b[0] as nat;
  }

  function HeaderBytes(p: Packet): (h: Bytes)
    requires p.WellFormed()
    ensures |h| == EXTENDED_HEADER_SIZE
  {
    p.header.id + [p.header.codec] + ToBigEndian(|p.payload|)
  }

  function Frame(p: Packet): Bytes
    requires p.WellFormed()
  {
    HeaderBytes(p) + p.payload
  }

  predicate AllWellFormed(packets: seq<Packet>) {
    forall p :: p in packets ==> p.WellFormed()
  }

  function FrameAll(packets: seq<Packet>): Bytes
    requires AllWellFormed(packets)
  {
    if packets == [] then [] else Frame(packets[0]) + FrameAll(packets[1..])
  }

  // The bytes of a frame: the id in 16 bytes, the codec in one, the length of the payload in four with
  // the most significant first, then the payload.
  lemma FrameBytes(p: Packet)
    requires p.WellFormed()
    ensures var f := Frame(p);
            && |f| == 21 + |p.payload|
            && (forall i :: 0 <= i < 16 ==> f[i] == p.header.id[i]) && f[16] == p.header.codec
            && f[17] as int * 0x1000000 + f[18] as int * 0x10000 + f[19] as int * 0x100 + f[20] as int == |p.payload|
            && (forall i :: 0 <= i < |p.payload| ==> f[21 + i] == p.payload[i])
  {
    var f, size := Frame(p), ToBigEndian(|p.payload|);
    BigEndianRoundTrip(|p.payload|);
    assert f[17] == size[0] && f[18] == size[1] && f[19] == size[2] && f[20] == size[3];
  }

  // ----- Parsing -----

  function PayloadSize(s: Bytes): nat
    requires |s| >= EXTENDED_HEADER_SIZE
  {
    FromBigEndian(s[HEADER_SIZE..EXTENDED_HEADER_SIZE])
  }

  predicate Complete(s: Bytes) {
    |s| >= EXTENDED_HEADER_SIZE && |s| >= EXTENDED_HEADER_SIZE + PayloadSize(s)
  }

  function First(s: Bytes): (p: Packet)
    requires Complete(s)
    ensures p.WellFormed()
  {
    Packet(PacketHeader(s[..ID_SIZE], s[ID_SIZE]), s[EXTENDED_HEADER_SIZE..EXTENDED_HEADER_SIZE + PayloadSize(s)])
  }

  function After(s: Bytes): (rest: Bytes)
    requires Complete(s)
    ensures |rest| < |s|
  {
    s[EXTENDED_HEADER_SIZE + PayloadSize(s)..]
  }

  datatype Parsed = Parsed(packets: seq<Packet>, rest: Bytes)

  // The packets in a byte string, and the incomplete frame at its end.
  function Parse(s: Bytes): Parsed
    decreases |s|
  {
    if !Complete(s) then Parsed([], s)
    else var more := Parse(After(s)); Parsed([First(s)] + more.packets, more.rest)
  }

  // A frame is read back as the packet it was made of, whatever follows.
  lemma FrameThenRest(p: Packet, rest: Bytes)
    requires p.WellFormed()
    ensures Complete(Frame(p) + rest) && First(Frame(p) + rest) == p && After(Frame(p) + rest) == rest
  {
    var s, h := Frame(p) + rest, HeaderBytes(p);
    assert s == h + (p.payload + rest);
    assert s[..ID_SIZE] == h[..ID_SIZE] == p.header.id;
    assert s[HEADER_SIZE..EXTENDED_HEADER_SIZE] == h[HEADER_SIZE..EXTENDED_HEADER_SIZE] == ToBigEndian(|p.payload|);
    BigEndianRoundTrip(|p.payload|);
    assert PayloadSize(s) == |p.payload|;
    assert s[EXTENDED_HEADER_SIZE..] == p.payload + rest;
    assert s[EXTENDED_HEADER_SIZE..EXTENDED_HEADER_SIZE + |p.payload|] == p.payload;
  }

  // And whatever is read was such a frame.
  lemma FirstIsFrame(s: Bytes)
    requires Complete(s)
    ensures s == Frame(First(s)) + After(s)
  {
    var n := PayloadSize(s);
    BigEndianUnique(s[HEADER_SIZE..EXTENDED_HEADER_SIZE]);
    assert s == s[..ID_SIZE] + [s[ID_SIZE]] + s[HEADER_SIZE..EXTENDED_HEADER_SIZE]
                + s[EXTENDED_HEADER_SIZE..EXTENDED_HEADER_SIZE + n] + s[EXTENDED_HEADER_SIZE + n..];
  }

  lemma {:induction false} ParseOfFrames(packets: seq<Packet>, rest: Bytes)
    requires AllWellFormed(packets) && !Complete(rest)
    ensures Parse(FrameAll(packets) + rest) == Parsed(packets, rest)
  {
    hide Frame, Complete, First, After, Parse, FrameAll;
    ParseCons(FrameAll(packets) + rest);
    FrameAllCons(packets);
    if packets == [] {
      assert FrameAll(packets) + rest == rest;
    } else {
      assert packets[0] in packets && forall p :: p in packets[1..] ==> p in packets;
      assert FrameAll(packets) + rest == Frame(packets[0]) + (FrameAll(packets[1..]) + rest);
      FrameThenRest(packets[0], FrameAll(packets[1..]) + rest);
      ParseOfFrames(packets[1..], rest);
      assert packets == [packets[0]] + packets[1..];
    }
  }

  lemma ParseCons(s: Bytes)
    ensures Parse(s) == if !Complete(s) then Parsed([], s)
                        else Parsed([First(s)] + Parse(After(s)).packets, Parse(After(s)).rest)
  {
    hide Complete, First, After;
  }

  lemma FrameAllCons(packets: seq<Packet>)
    requires AllWellFormed(packets)
    ensures packets == [] ==> FrameAll(packets) == []
    ensures packets != [] ==>
              && packets[0].WellFormed() && AllWellFormed(packets[1..])
              && FrameAll(packets) == Frame(packets[0]) + FrameAll(packets[1..])
  {
    hide Frame;
    if packets != [] {
      assert packets[0] in packets;
    }
  }

  lemma {:induction false} FramesOfParse(s: Bytes)
    ensures var p := Parse(s);
            AllWellFormed(p.packets) && !Complete(p.rest) && s == FrameAll(p.packets) + p.rest
    decreases |s|
  {
    if Complete(s) {
      FirstIsFrame(s);
      FramesOfParse(After(s));
      var more := Parse(After(s));
      assert ([First(s)] + more.packets)[1..] == more.packets;
      assert Frame(First(s)) + (FrameAll(more.packets) + more.rest) == Frame(First(s)) + FrameAll(more.packets) + more.rest;
    }
  }

  // The packets and the incomplete frame of a byte string are the only ones it can be put together from.
  lemma ParseIff(s: Bytes, packets: seq<Packet>, rest: Bytes)
    ensures Parse(s) == Parsed(packets, rest) <==>
            AllWellFormed(packets) && !Complete(rest) && s == FrameAll(packets) + rest
  {
    FramesOfParse(s);
    if AllWellFormed(packets) && !Complete(rest) && s == FrameAll(packets) + rest {
      ParseOfFrames(packets, rest);
    }
  }

  // Reading on: what more bytes complete is parsed from the incomplete frame before them.
  lemma {:induction false} ParseMore(s: Bytes, more: Bytes)
    ensures var p := Parse(s); var q := Parse(p.rest + more);
            Parse(s + more) == Parsed(p.packets + q.packets, q.rest)
    decreases |s|
  {
    if Complete(s) {
      var p := Parse(After(s));
      assert s[HEADER_SIZE..EXTENDED_HEADER_SIZE] == (s + more)[HEADER_SIZE..EXTENDED_HEADER_SIZE];
      assert After(s + more) == After(s) + more;
      assert First(s + more) == First(s) by {
        assert (s + more)[..ID_SIZE] == s[..ID_SIZE];
        var n := EXTENDED_HEADER_SIZE + PayloadSize(s);
        assert (s + more)[EXTENDED_HEADER_SIZE..n] == s[EXTENDED_HEADER_SIZE..n];
      }
      ParseMore(After(s), more);
      var q := Parse(p.rest + more);
      assert [First(s)] + (p.packets + q.packets) == [First(s)] + p.packets + q.packets;
    } else {
      assert [] + Parse(s + more).packets == Parse(s + more).packets;
    }
  }
}
