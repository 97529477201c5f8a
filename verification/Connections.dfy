// The edge connection over TCP: a reader and a writer that can be interrupted after any byte.

module Connections {
  import opened Messages
  import opened Lists
  import opened Frames

  // How the socket answers the next calls: not yet, at most so many bytes, or an error. A transfer of
  // no bytes is what a closed stream answers to a read.
  datatype IoStep = NotReady | Transfer(most: nat) | Fault

  datatype IoResult = Waiting | Moved(n: nat) | Broken

  // A call takes the next answer; it moves bytes, possibly none, when that is a transfer.
  predicate Answered(before: seq<IoStep>, after: seq<IoStep>, r: IoResult) {
    if before == [] then r.Waiting? && after == []
    else
      && after == before[1..]
      && match before[0]
         case NotReady => r.Waiting?
         case Transfer(_) => r.Moved?
         case Fault => r.Broken?
  }

  predicate AllTransfers(script: seq<IoStep>) {
    forall step :: step in script ==> step.Transfer?
  }

  predicate NoFault(script: seq<IoStep>) {
    forall step :: step in script ==> !step.Fault?
  }

  // The answers that move a byte if there is one to move.
  function Moves(script: seq<IoStep>): nat {
    if script == [] then 0
    else (if script[0].Transfer? && script[0].most > 0 then 1 else 0) + Moves(script[1..])
  }

  lemma NextMoves(script: seq<IoStep>)
    ensures script == [] ==> Moves(script) == 0 && NoFault(script) && AllTransfers(script)
    ensures script != [] ==>
              Moves(script) == (if script[0].Transfer? && script[0].most > 0 then 1 else 0) + Moves(script[1..])
    ensures script != [] && NoFault(script) ==> !script[0].Fault? && NoFault(script[1..])
    ensures script != [] && AllTransfers(script) ==> script[0].Transfer? && AllTransfers(script[1..])
  {
  }

  // Progress: each such answer that was used has moved a byte, until there is none left.
  predicate Progress(before: seq<IoStep>, after: seq<IoStep>, unreadBefore: nat, unread: nat) {
    unread <= unreadBefore && (unread == 0 || Moves(before) <= Moves(after) + (unreadBefore - unread))
  }

  class Socket {
    var incoming: Bytes
    var outgoing: Bytes
    var script: seq<IoStep>

    constructor (incoming: Bytes, script: seq<IoStep>)
      ensures this.incoming == incoming && this.script == script && outgoing == []
    {
      this.incoming, this.script, outgoing := incoming, script, [];
    }

    method NextStep() returns (step: IoStep)
      modifies `script
      ensures old(script) == [] ==> step == NotReady && script == []
      ensures old(script) != [] ==> step == old(script)[0] && script == old(script)[1..]
    {
      if script == [] {
        return NotReady;
      }
      step := script[0];
      script := script[1..];
    }

    // Reads into the buffer from `start` on; `data` is what was read.
    method PollRead(buf: array<byte>, start: nat) returns (r: IoResult, ghost data: Bytes)
      requires start <= buf.Length
      modifies `incoming, `script, buf
      ensures Answered(old(script), script, r)
      ensures data + incoming == old(incoming) && |data| == if r.Moved? then r.n else 0
      ensures start + |data| <= buf.Length && buf[..start + |data|] == old(buf[..start]) + data
      ensures start < buf.Length ==> Progress(old(script), script, |old(incoming)|, |incoming|)
    {
      NextMoves(script);
      data := [];
      var step := NextStep();
      match step {
        case NotReady => r := Waiting;
        case Fault => r := Broken;
        case Transfer(most) =>
          var n := buf.Length - start;
          if |incoming| < n { n := |incoming|; }
          if most < n { n := most; }
          forall i | 0 <= i < n {
            buf[start + i] := incoming[i];
          }
          data := incoming[..n];
          Copied(old(buf[..]), buf[..], start, data);
          assert buf[..][..start + n] == buf[..start + n] && old(buf[..])[..start] == old(buf[..start]);
          incoming := incoming[n..];
          r := Moved(n);
      }
    }

    method PollWrite(data: Bytes) returns (r: IoResult)
      modifies `outgoing, `script
      ensures Answered(old(script), script, r)
      ensures r.Moved? ==>
                r.n <= |data| && outgoing == old(outgoing) + data[..r.n]
      ensures !r.Moved? ==> outgoing == old(outgoing)
      ensures Moves(old(script)) <= Moves(script) + (if data == [] then 1 else |outgoing| - |old(outgoing)|)
      ensures !r.Moved? ==> Moves(script) == Moves(old(script))
    {
      NextMoves(script);
      var step := NextStep();
      match step {
        case NotReady => r := Waiting;
        case Fault => r := Broken;
        case Transfer(most) =>
          var n := if most < |data| then most else |data|;
          outgoing := outgoing + data[..n];
          r := Moved(n);
      }
    }
  }

  datatype ReadState = ExpectingHeader | ExpectingPayload
  datatype WriteState = Ready | WritingHeader | WritingPayload

  datatype Next = Pending | Item(packet: Packet) | ReadError
  datatype Flushed = FlushPending | FlushReady | WriteError

  class Reader {
    const inner: Socket
    var readState: ReadState
    const readHeaderBuf: array<byte>
    var readPayloadSize: nat
    var readPayloadBuf: array<byte>
    var readIndex: nat
    var readHeader: Option<PacketHeader>
    // All bytes read so far, and all packets handed out.
    ghost var consumed: Bytes
    ghost var yielded: seq<Packet>

    // The bytes of the frame under way.
    ghost function Buffered(): Bytes
      requires readHeaderBuf.Length == EXTENDED_HEADER_SIZE
      requires readIndex <= if readState.ExpectingHeader? then EXTENDED_HEADER_SIZE else readPayloadBuf.Length
      reads this, readHeaderBuf, readPayloadBuf
    {
      if readState.ExpectingHeader? then readHeaderBuf[..readIndex]
      else readHeaderBuf[..] + readPayloadBuf[..readIndex]
    }

    // What the state says about the frame under way.
    ghost predicate Framed()
      reads this, readHeaderBuf, readPayloadBuf
    {
      && readHeaderBuf.Length == EXTENDED_HEADER_SIZE && readHeaderBuf != readPayloadBuf
      && match readState
         case ExpectingHeader => readIndex < EXTENDED_HEADER_SIZE
         case ExpectingPayload =>
           && readPayloadSize == PayloadSize(readHeaderBuf[..]) == readPayloadBuf.Length
           && (readIndex < readPayloadSize || readIndex == readPayloadSize == 0)
           && readHeader == Some(PacketHeader(readHeaderBuf[..ID_SIZE], readHeaderBuf[ID_SIZE]))
    }

    // Nothing is lost, doubled or reordered: the bytes read are the frames of the packets handed out,
    // and then those of the frame under way.
    ghost predicate Accounted()
      reads this, readHeaderBuf, readPayloadBuf
    {
      Framed() && AllWellFormed(yielded) && consumed == FrameAll(yielded) + Buffered()
    }

    ghost predicate Valid()
      reads this, readHeaderBuf, readPayloadBuf
    {
      Accounted() && !Complete(Buffered())
    }

    constructor (inner: Socket)
      ensures Valid() && this.inner == inner && consumed == [] && yielded == []
      ensures fresh(readHeaderBuf) && fresh(readPayloadBuf)
    {
      this.inner, readState, readPayloadSize, readIndex, readHeader := inner, ExpectingHeader, 0, 0, None;
      readHeaderBuf := new byte[EXTENDED_HEADER_SIZE];
      readPayloadBuf := new byte[0];
      consumed, yielded := [], [];
    }

    // However the bytes were cut into reads, what was handed out is what parsing all of them gives.
    lemma ReadsWhatIsThere()
      requires Valid()
      ensures Parse(consumed) == Parsed(yielded, Buffered())
    {
      ParseIff(consumed, yielded, Buffered());
    }

    // Reader and writer are inverse: of the frames of some packets, read so far, exactly the packets
    // are handed out whose frames are complete; of all of them, all packets.
    lemma ReadsWhatWasWritten(packets: seq<Packet>)
      requires Valid() && AllWellFormed(packets) && consumed <= FrameAll(packets)
      ensures yielded <= packets
      ensures consumed == FrameAll(packets) ==> yielded == packets && Buffered() == []
    {
      var more := FrameAll(packets)[|consumed|..];
      assert consumed + more == FrameAll(packets) && FrameAll(packets) + [] == FrameAll(packets);
      ParseOfFrames(packets, []);
      ReadsWhatIsThere();
      ParseMore(consumed, more);
    }

    // One turn of the loop while a header is expected.
    method ReadHeader() returns (r: IoResult)
      requires Accounted() && readState.ExpectingHeader?
      modifies this, inner, readHeaderBuf
      ensures Accounted() && yielded == old(yielded) && (readState.ExpectingHeader? ==> Valid())
      ensures consumed + inner.incoming == old(consumed + inner.incoming)
      ensures readPayloadBuf == old(readPayloadBuf) || fresh(readPayloadBuf)
      ensures Answered(old(inner.script), inner.script, r)
      ensures !r.Moved? || old(inner.incoming) == [] ==> readState.ExpectingHeader? && consumed == old(consumed)
      ensures Progress(old(inner.script), inner.script, |old(inner.incoming)|, |inner.incoming|)
    {
      hide FrameAll, PayloadSize, AllWellFormed, Answered, Progress;
      ghost var data;
      r, data := inner.PollRead(readHeaderBuf, readIndex);
      if !r.Moved? {
        assert old(readHeaderBuf[..readIndex]) + [] == old(readHeaderBuf[..readIndex]);
        return;
      }
      Assoc(consumed, data, inner.incoming);
      Assoc(FrameAll(yielded), old(readHeaderBuf[..readIndex]), data);
      consumed := consumed + data;
      var remaining := readHeaderBuf.Length - readIndex - r.n;
      if remaining == 0 {
        assert readHeaderBuf[..] == readHeaderBuf[..readIndex + r.n];
        ExpectPayload();
      } else {
        readIndex := EXTENDED_HEADER_SIZE - remaining;
      }
    }

    // The whole header is there.
    method ExpectPayload()
      requires readHeaderBuf.Length == EXTENDED_HEADER_SIZE
      requires AllWellFormed(yielded) && consumed == FrameAll(yielded) + readHeaderBuf[..]
      modifies this
      ensures Accounted() && readState.ExpectingPayload? && fresh(readPayloadBuf)
      ensures consumed == old(consumed) && yielded == old(yielded)
    {
      readState, readIndex := ExpectingPayload, 0;
      readPayloadSize := FromBigEndian(readHeaderBuf[HEADER_SIZE..EXTENDED_HEADER_SIZE]);
      assert readHeaderBuf[..][HEADER_SIZE..EXTENDED_HEADER_SIZE] == readHeaderBuf[HEADER_SIZE..EXTENDED_HEADER_SIZE];
      readPayloadBuf := new byte[readPayloadSize];
      readHeader := Some(PacketHeader(readHeaderBuf[..ID_SIZE], readHeaderBuf[ID_SIZE]));
      assert readHeaderBuf[..] + readPayloadBuf[..0] == readHeaderBuf[..];
    }

    // One turn of the loop while a payload is expected that is not empty.
    method ReadPayload() returns (r: IoResult, packet: Option<Packet>)
      requires Accounted() && readState.ExpectingPayload? && readPayloadSize > 0
      modifies this, inner, readPayloadBuf
      ensures Accounted() && Valid()
      ensures consumed + inner.incoming == old(consumed + inner.incoming)
      ensures readPayloadBuf == old(readPayloadBuf) || fresh(readPayloadBuf)
      ensures Answered(old(inner.script), inner.script, r)
      ensures packet.Some? ==> Buffered() == [] && yielded == old(yielded) + [packet.value]
      ensures packet.None? ==> yielded == old(yielded)
      ensures packet.None? ==> readState == old(readState) && readPayloadSize == old(readPayloadSize)
      ensures !r.Moved? || old(inner.incoming) == [] ==> packet.None? && consumed == old(consumed)
      ensures Progress(old(inner.script), inner.script, |old(inner.incoming)|, |inner.incoming|)
    {
      hide FrameAll, PayloadSize, AllWellFormed, Complete, Answered, Progress;
      ghost var data, before := [], readPayloadBuf[..readIndex];
      packet := None;
      NotYetComplete(readHeaderBuf[..], before);
      r, data := inner.PollRead(readPayloadBuf, readIndex);
      if !r.Moved? {
        assert before + [] == before;
        return;
      }
      Assoc(consumed, data, inner.incoming);
      MoreRead(FrameAll(yielded), readHeaderBuf[..], before, data);
      packet := TakePayload(r.n, data);
    }

    // So many bytes have come into the payload buffer.
    method TakePayload(n: nat, ghost data: Bytes) returns (packet: Option<Packet>)
      requires Framed() && readState.ExpectingPayload? && readIndex + n <= readPayloadSize && readPayloadSize > 0
      requires AllWellFormed(yielded) && |data| == n
      requires consumed + data == FrameAll(yielded) + (readHeaderBuf[..] + readPayloadBuf[..readIndex + n])
      modifies this
      ensures Valid() && consumed == old(consumed) + data
      ensures readPayloadBuf == old(readPayloadBuf) || fresh(readPayloadBuf)
      ensures packet.Some? ==> n > 0 && Buffered() == [] && yielded == old(yielded) + [packet.value]
      ensures packet.None? ==> yielded == old(yielded)
      ensures packet.None? ==> readState == old(readState) && readPayloadSize == old(readPayloadSize)
    {
      hide FrameAll, PayloadSize, AllWellFormed, Complete;
      packet := None;
      consumed := consumed + data;
      var remain := readPayloadBuf.Length - readIndex - n;
      if remain == 0 {
        assert readPayloadBuf[..readIndex + n] == readPayloadBuf[..];
        var p := HandOut();
        packet := Some(p);
      } else {
        readIndex := readPayloadSize - remain;
        NotYetComplete(readHeaderBuf[..], readPayloadBuf[..readIndex]);
      }
    }

    // The whole frame is there.
    method HandOut() returns (packet: Packet)
      requires readHeaderBuf.Length == EXTENDED_HEADER_SIZE && readHeaderBuf != readPayloadBuf
      requires readPayloadBuf.Length == PayloadSize(readHeaderBuf[..])
      requires readHeader == Some(PacketHeader(readHeaderBuf[..ID_SIZE], readHeaderBuf[ID_SIZE]))
      requires AllWellFormed(yielded) && consumed == FrameAll(yielded) + (readHeaderBuf[..] + readPayloadBuf[..])
      modifies this
      ensures Valid() && Buffered() == [] && consumed == old(consumed)
      ensures yielded == old(yielded) + [packet] && fresh(readPayloadBuf)
    {
      packet := Packet(readHeader.value, readPayloadBuf[..]);
      OneFrame(readHeaderBuf[..], readPayloadBuf[..]);
      FrameAllMore(yielded, packet);
      readHeader, readState, readIndex := None, ExpectingHeader, 0;
      readPayloadBuf := new byte[0];
      yielded := yielded + [packet];
      assert readHeaderBuf[..0] == [] && consumed + [] == consumed;
    }

    // A frame under way is incomplete exactly when it has a payload.
    lemma EmptyIsComplete()
      requires Accounted() && readState.ExpectingPayload?
      ensures Valid() <==> readPayloadSize > 0
    {
      HeaderSize(readHeaderBuf[..], readPayloadBuf[..readIndex]);
    }

    // One call: it reads until a packet is complete or the socket answers with something else than bytes.
    method PollNext() returns (r: Next)
      requires Valid()
      modifies this, inner, readHeaderBuf, readPayloadBuf
      ensures Valid() && (readPayloadBuf == old(readPayloadBuf) || fresh(readPayloadBuf))
      ensures consumed + inner.incoming == old(consumed + inner.incoming)
      ensures r.Item? ==> Buffered() == [] && yielded == old(yielded) + [r.packet]
      ensures !r.Item? ==> yielded == old(yielded)
      ensures if old(inner.script) == [] then r.Pending? && inner.script == [] else |inner.script| < |old(inner.script)|
      ensures Progress(old(inner.script), inner.script, |old(inner.incoming)|, |inner.incoming|)
      ensures NoFault(old(inner.script)) ==> !r.ReadError? && NoFault(inner.script)
      ensures AllTransfers(old(inner.script)) && !r.Item? ==> r.Pending? && inner.script == []
      // On a closed stream it does not come back as long as there are answers, and reads nothing.
      ensures old(inner.incoming) == [] && AllTransfers(old(inner.script)) ==>
                r.Pending? && inner.script == [] && consumed == old(consumed)
    {
      hide FrameAll, AllWellFormed, Moves, Progress, NoFault, AllTransfers, Complete, PayloadSize;
      ProgressNone(inner.script, |inner.incoming|);
      while true
        invariant Accounted() && yielded == old(yielded)
        invariant readPayloadBuf == old(readPayloadBuf) || fresh(readPayloadBuf)
        invariant consumed + inner.incoming == old(consumed + inner.incoming)
        invariant (readState.ExpectingPayload? && readPayloadSize == 0) || Valid()
        invariant old(inner.incoming) == [] ==> inner.incoming == [] && consumed == old(consumed) && Valid()
        invariant AllTransfers(old(inner.script)) ==> AllTransfers(inner.script)
        invariant NoFault(old(inner.script)) ==> NoFault(inner.script)
        invariant (inner.script == old(inner.script) && Valid()) || |inner.script| < |old(inner.script)|
        invariant Progress(old(inner.script), inner.script, |old(inner.incoming)|, |inner.incoming|)
        decreases |inner.script|
      {
        ghost var script, unread := inner.script, |inner.incoming|;
        NextMoves(script);
        match readState {
          case ExpectingHeader =>
            var io := ReadHeader();
            if readState.ExpectingPayload? {
              EmptyIsComplete();
            }
            ProgressMore(old(inner.script), script, inner.script, |old(inner.incoming)|, unread, |inner.incoming|);
            if io.Waiting? { return Pending; }
            if io.Broken? { return ReadError; }
          case ExpectingPayload =>
            EmptyIsComplete();
            if readPayloadSize == 0 {
              assert readPayloadBuf[..readIndex] == readPayloadBuf[..];
              var packet := HandOut();
              return Item(packet);
            }
            var io, packet := ReadPayload();
            ProgressMore(old(inner.script), script, inner.script, |old(inner.incoming)|, unread, |inner.incoming|);
            if packet.Some? { return Item(packet.value); }
            if io.Waiting? { return Pending; }
            if io.Broken? { return ReadError; }
        }
      }
    }

    // Polling until the socket has no more answers, or fails. If enough of them move bytes, everything
    // that came in is read: what is handed out and what is left are the parse of it, however it was cut
    // into reads. In particular, of the frames of some packets exactly those packets are handed out.
    method PollAll() returns (packets: seq<Packet>, failed: bool)
      requires Valid()
      modifies this, inner, readHeaderBuf, readPayloadBuf
      ensures Valid() && (readPayloadBuf == old(readPayloadBuf) || fresh(readPayloadBuf))
      ensures yielded == old(yielded) + packets && consumed + inner.incoming == old(consumed + inner.incoming)
      ensures !failed ==> inner.script == []
      ensures NoFault(old(inner.script)) ==> !failed
      ensures NoFault(old(inner.script)) && Moves(old(inner.script)) >= |old(inner.incoming)| ==>
                && inner.incoming == []
                && Parse(old(consumed + inner.incoming)) == Parsed(old(yielded) + packets, Buffered())
                && forall all: seq<Packet> ::
                     AllWellFormed(all) && FrameAll(all) == old(consumed + inner.incoming) ==>
                       old(yielded) + packets == all && Buffered() == []
    {
      hide FrameAll, AllWellFormed, Moves, Parse, NoFault, Progress, Complete, AllTransfers;
      packets, failed := [], false;
      ProgressNone(inner.script, |inner.incoming|);
      while inner.script != []
        invariant Valid() && (readPayloadBuf == old(readPayloadBuf) || fresh(readPayloadBuf))
        invariant yielded == old(yielded) + packets && consumed + inner.incoming == old(consumed + inner.incoming)
        invariant NoFault(old(inner.script)) ==> NoFault(inner.script)
        invariant Progress(old(inner.script), inner.script, |old(inner.incoming)|, |inner.incoming|)
        decreases |inner.script|
      {
        ghost var script, unread := inner.script, |inner.incoming|;
        var r := PollNext();
        ProgressMore(old(inner.script), script, inner.script, |old(inner.incoming)|, unread, |inner.incoming|);
        match r {
          case Item(packet) => packets := packets + [packet];
          case Pending =>
          case ReadError => return packets, true;
        }
      }
      ProgressEnds(old(inner.script), |old(inner.incoming)|, |inner.incoming|);
      if inner.incoming == [] {
        assert consumed + [] == consumed;
        ReadsWhatIsThere();
        forall all: seq<Packet> | AllWellFormed(all) && FrameAll(all) == consumed
          ensures yielded == all && Buffered() == []
        {
          ReadsWhatWasWritten(all);
        }
      }
    }
  }

  lemma ProgressNone(script: seq<IoStep>, unread: nat)
    ensures Progress(script, script, unread, unread)
  {
  }

  lemma ProgressMore(a: seq<IoStep>, b: seq<IoStep>, c: seq<IoStep>, unreadA: nat, unreadB: nat, unreadC: nat)
    requires Progress(a, b, unreadA, unreadB) && Progress(b, c, unreadB, unreadC)
    ensures Progress(a, c, unreadA, unreadC)
  {
    hide Moves;
  }

  lemma ProgressEnds(before: seq<IoStep>, unreadBefore: nat, unread: nat)
    requires Progress(before, [], unreadBefore, unread)
    ensures Moves(before) >= unreadBefore ==> unread == 0
  {
  }

  // Progress: each answer that was used and could move a byte has moved one, but for one that ends a
  // frame.
  predicate Spent(before: seq<IoStep>, after: seq<IoStep>, writtenBefore: nat, written: nat, ended: bool) {
    writtenBefore <= written && Moves(before) <= Moves(after) + (written - writtenBefore) + (if ended then 1 else 0)
  }

  class Writer {
    // The size of a machine word in bytes.
    const usizeBytes: nat
    const inner: Socket
    const writeHeaderBuf: array<byte>
    var writePayloadBuf: Bytes
    var writeState: WriteState
    var writeIndex: nat

    ghost predicate Valid()
      reads this
    {
      && writeHeaderBuf.Length == EXTENDED_HEADER_SIZE
      && match writeState
         case Ready => writeIndex == 0
         case WritingHeader => writeIndex < EXTENDED_HEADER_SIZE
         case WritingPayload => writeIndex <= |writePayloadBuf|
    }

    // What a flush has still to write.
    ghost function Remaining(): Bytes
      requires Valid()
      reads this, writeHeaderBuf
    {
      match writeState
      case Ready => writeHeaderBuf[..] + writePayloadBuf
      case WritingHeader => writeHeaderBuf[writeIndex..] + writePayloadBuf
      case WritingPayload => writePayloadBuf[writeIndex..]
    }

    constructor (inner: Socket, usizeBytes: nat)
      ensures Valid() && this.inner == inner && writeState.Ready? && fresh(writeHeaderBuf)
      ensures this.usizeBytes == usizeBytes
    {
      this.inner, this.usizeBytes := inner, usizeBytes;
      writePayloadBuf, writeState, writeIndex := [], Ready, 0;
      writeHeaderBuf := new byte[EXTENDED_HEADER_SIZE];
    }

    // The length of the payload is a machine word, and its bytes are copied into four: where words have
    // another size the code stops there. Otherwise the buffers are overwritten whatever the state:
    // between two flushes the whole frame is then to be written, in the middle of one only what comes
    // after the index.
    method StartSend(item: Packet) returns (started: bool)
      requires Valid() && item.WellFormed()
      modifies this, writeHeaderBuf
      ensures started <==> usizeBytes == 4
      ensures writeState == old(writeState) && writeIndex == old(writeIndex)
      ensures !started ==> Valid() && writePayloadBuf == old(writePayloadBuf)
      ensures !started ==> writeHeaderBuf[HEADER_SIZE..] == old(writeHeaderBuf[HEADER_SIZE..])
      ensures started ==>
                && writeHeaderBuf[..] + writePayloadBuf == Frame(item)
                && (Valid() <==> !(writeState.WritingPayload? && writeIndex > |item.payload|))
                && (writeState.Ready? ==> Valid() && Remaining() == Frame(item))
    {
      forall i | 0 <= i < ID_SIZE {
        writeHeaderBuf[i] := item.header.id[i];
      }
      writeHeaderBuf[ID_SIZE] := item.header.codec;
      if usizeBytes != EXTENDED_HEADER_SIZE - HEADER_SIZE {
        return false;
      }
      var size := ToBigEndian(|item.payload|);
      forall i | HEADER_SIZE <= i < EXTENDED_HEADER_SIZE {
        writeHeaderBuf[i] := size[i - HEADER_SIZE];
      }
      writePayloadBuf := item.payload;
      assert writeHeaderBuf[..] == HeaderBytes(item);
      started := true;
    }

    // One turn of the loop while the header is written.
    method WriteHeader() returns (io: IoResult)
      requires Valid() && writeState.WritingHeader?
      modifies this, inner
      ensures Valid() && !writeState.Ready? && writePayloadBuf == old(writePayloadBuf)
      ensures Answered(old(inner.script), inner.script, io)
      ensures inner.outgoing + Remaining() == old(inner.outgoing + Remaining())
      ensures Spent(old(inner.script), inner.script, |old(inner.outgoing)|, |inner.outgoing|, false)
    {
      hide Answered, Moves;
      ghost var sent, data := inner.outgoing, writeHeaderBuf[writeIndex..];
      io := inner.PollWrite(writeHeaderBuf[writeIndex..]);
      if io.Moved? {
        Written(sent, data, io.n, writePayloadBuf);
        assert data[io.n..] == writeHeaderBuf[writeIndex + io.n..];
        writeIndex := writeIndex + io.n;
        if writeIndex == EXTENDED_HEADER_SIZE {
          writeState, writeIndex := WritingPayload, 0;
          assert writeHeaderBuf[EXTENDED_HEADER_SIZE..] == [] && [] + writePayloadBuf == writePayloadBuf[0..];
        }
      }
    }

    // One turn of the loop while the payload is written.
    method WritePayload() returns (io: IoResult)
      requires Valid() && writeState.WritingPayload?
      modifies this, inner
      ensures Valid() && writePayloadBuf == old(writePayloadBuf)
      ensures Answered(old(inner.script), inner.script, io)
      ensures writeState.Ready? || writeState.WritingPayload?
      ensures writeState.Ready? ==> io.Moved? && inner.outgoing == old(inner.outgoing + Remaining())
      ensures !writeState.Ready? ==> inner.outgoing + Remaining() == old(inner.outgoing + Remaining())
      ensures Spent(old(inner.script), inner.script, |old(inner.outgoing)|, |inner.outgoing|, writeState.Ready?)
    {
      hide Answered, Moves;
      ghost var sent, data := inner.outgoing, writePayloadBuf[writeIndex..];
      io := inner.PollWrite(writePayloadBuf[writeIndex..]);
      if io.Moved? {
        Written(sent, data, io.n, []);
        assert data[io.n..] == writePayloadBuf[writeIndex + io.n..];
        writeIndex := writeIndex + io.n;
        if writeIndex == |writePayloadBuf| {
          assert writePayloadBuf[writeIndex..] == [] && inner.outgoing + [] == inner.outgoing;
          writeState, writeIndex := Ready, 0;
        }
      }
    }

    // However many bytes the socket takes at a time, what a flush writes before it is done is what
    // remained to be written, once and in order. It starts over with the same frame when it is called
    // again without a new packet.
    method PollFlush() returns (r: Flushed)
      requires Valid()
      modifies this, inner
      ensures Valid() && writePayloadBuf == old(writePayloadBuf)
      ensures r.FlushReady? ==> writeState.Ready? && inner.outgoing == old(inner.outgoing + Remaining())
      ensures !r.FlushReady? ==> inner.outgoing + Remaining() == old(inner.outgoing + Remaining())
      ensures if old(inner.script) == [] then r.FlushPending? && inner.script == [] else |inner.script| < |old(inner.script)|
      ensures Spent(old(inner.script), inner.script, |old(inner.outgoing)|, |inner.outgoing|, r.FlushReady?)
      ensures NoFault(old(inner.script)) ==> !r.WriteError? && NoFault(inner.script)
      ensures AllTransfers(old(inner.script)) && !r.FlushReady? ==> r.FlushPending? && inner.script == []
    {
      hide Moves;
      while true
        invariant Valid() && writePayloadBuf == old(writePayloadBuf)
        invariant inner.outgoing + Remaining() == old(inner.outgoing + Remaining())
        invariant inner.script == old(inner.script) || |inner.script| < |old(inner.script)|
        invariant Spent(old(inner.script), inner.script, |old(inner.outgoing)|, |inner.outgoing|, false)
        invariant NoFault(old(inner.script)) ==> NoFault(inner.script)
        invariant AllTransfers(old(inner.script)) ==> AllTransfers(inner.script)
        decreases |inner.script|, if writeState.Ready? then 1 else 0
      {
        NextMoves(inner.script);
        match writeState {
          case Ready =>
            writeState := WritingHeader;
            assert writeHeaderBuf[0..] == writeHeaderBuf[..];
          case WritingHeader =>
            var io := WriteHeader();
            if io.Waiting? { return FlushPending; }
            if io.Broken? { return WriteError; }
          case WritingPayload =>
            var io := WritePayload();
            if writeState.Ready? { return FlushReady; }
            if io.Waiting? { return FlushPending; }
            if io.Broken? { return WriteError; }
        }
      }
    }

    // One packet, flushed until that is done: exactly its frame goes out. It is done if the socket moves
    // bytes often enough, and does not fail.
    method Send(item: Packet) returns (done: bool)
      requires Valid() && writeState.Ready? && item.WellFormed()
      modifies this, writeHeaderBuf, inner
      ensures Valid()
      ensures done ==> usizeBytes == 4 && writeState.Ready? && inner.outgoing == old(inner.outgoing) + Frame(item)
      ensures !done && usizeBytes == 4 ==> inner.outgoing + Remaining() == old(inner.outgoing) + Frame(item)
      ensures usizeBytes != 4 ==> inner.outgoing == old(inner.outgoing) && inner.script == old(inner.script)
      ensures NoFault(old(inner.script)) ==> NoFault(inner.script)
      ensures usizeBytes == 4 && NoFault(old(inner.script)) && Moves(old(inner.script)) > |Frame(item)| ==> done
      ensures done ==> Moves(old(inner.script)) <= Moves(inner.script) + |Frame(item)| + 1
    {
      hide Frame, Moves, NoFault, Answered, AllTransfers;
      var started := StartSend(item);
      if !started {
        return false;
      }
      var r := PollFlush();
      while r.FlushPending? && inner.script != []
        invariant Valid()
        invariant r.FlushReady? ==> writeState.Ready? && inner.outgoing == old(inner.outgoing) + Frame(item)
        invariant !r.FlushReady? ==> inner.outgoing + Remaining() == old(inner.outgoing) + Frame(item)
        invariant Spent(old(inner.script), inner.script, |old(inner.outgoing)|, |inner.outgoing|, r.FlushReady?)
        invariant NoFault(old(inner.script)) ==> !r.WriteError? && NoFault(inner.script)
        decreases |inner.script|
      {
        r := PollFlush();
      }
      done := r.FlushReady?;
      NextMoves(inner.script);
    }

    // A stream of packets: their frames go out one after the other.
    method SendAll(items: seq<Packet>) returns (done: bool)
      requires Valid() && writeState.Ready? && AllWellFormed(items)
      modifies this, writeHeaderBuf, inner
      ensures Valid()
      ensures done ==> writeState.Ready? && inner.outgoing == old(inner.outgoing) + FrameAll(items)
      ensures inner.outgoing <= old(inner.outgoing) + FrameAll(items)
      ensures usizeBytes == 4 && NoFault(old(inner.script)) && Moves(old(inner.script)) > |FrameAll(items)| + |items| ==> done
      ensures usizeBytes != 4 ==> inner.outgoing == old(inner.outgoing)
    {
      hide Frame, Moves, NoFault, FrameAll, AllWellFormed;
      AllFramed(items, 0);
      for i := 0 to |items|
        invariant Valid() && writeState.Ready?
        invariant AllWellFormed(items[..i]) && inner.outgoing == old(inner.outgoing) + FrameAll(items[..i])
        invariant NoFault(old(inner.script)) ==> NoFault(inner.script)
        invariant Moves(old(inner.script)) <= Moves(inner.script) + |FrameAll(items[..i])| + i
        invariant usizeBytes != 4 ==> i == 0 && inner.outgoing == old(inner.outgoing)
      {
        AllFramed(items, i);
        done := Send(items[i]);
        if !done && usizeBytes != 4 {
          return;
        }
        if !done {
          OutIsPrefix(items, i, old(inner.outgoing), inner.outgoing, Remaining());
          return;
        }
        AllFramed(items, i + 1);
        assert old(inner.outgoing) + FrameAll(items[..i]) + Frame(items[i]) == old(inner.outgoing) + FrameAll(items[..i + 1]);
      }
      assert items[..|items|] == items;
      done := true;
    }
  }

  // The frames of the first packets, and of the next one.
  lemma AllFramed(items: seq<Packet>, i: nat)
    requires AllWellFormed(items) && i <= |items|
    ensures AllWellFormed(items[..i]) && |FrameAll(items[..i])| <= |FrameAll(items)|
    ensures i == 0 ==> FrameAll(items[..i]) == []
    ensures i < |items| ==>
              && items[i].WellFormed() && AllWellFormed(items[..i + 1])
              && FrameAll(items[..i + 1]) == FrameAll(items[..i]) + Frame(items[i])
              && FrameAll(items[..i + 1]) <= FrameAll(items)
  {
    FrameAllSplit(items, i);
    if i < |items| {
      FrameAllSplit(items, i + 1);
      FrameAllMore(items[..i], items[i]);
      assert items[..i + 1] == items[..i] + [items[i]];
    }
  }

  lemma {:induction false} FrameAllSplit(items: seq<Packet>, i: nat)
    requires AllWellFormed(items) && i <= |items|
    ensures AllWellFormed(items[..i]) && AllWellFormed(items[i..])
    ensures FrameAll(items) == FrameAll(items[..i]) + FrameAll(items[i..])
  {
    hide Frame;
    if i == 0 {
      assert items[0..] == items;
    } else {
      assert items[0] in items;
      FrameAllSplit(items[1..], i - 1);
      assert items[..i][1..] == items[1..][..i - 1] && items[1..][i - 1..] == items[i..];
      Assoc(Frame(items[0]), FrameAll(items[1..][..i - 1]), FrameAll(items[i..]));
    }
  }

  lemma OutIsPrefix(items: seq<Packet>, i: nat, before: Bytes, out: Bytes, remaining: Bytes)
    requires i < |items| && AllWellFormed(items) && AllWellFormed(items[..i]) && items[i].WellFormed()
    requires out + remaining == before + FrameAll(items[..i]) + Frame(items[i])
    ensures out <= before + FrameAll(items)
  {
    hide Frame, FrameAll;
    AllFramed(items, i);
    Assoc(before, FrameAll(items[..i]), Frame(items[i]));
    assert out <= before + FrameAll(items[..i + 1]);
  }

  // From one end to the other: the packets that are sent on one connection and read on the other are
  // the same, in order, however the bytes are cut on either side, as long as the sockets do not fail and
  // move bytes often enough, and machine words have four bytes. With any other size nothing arrives.
  method Transmit(items: seq<Packet>, usizeBytes: nat, writing: seq<IoStep>, reading: seq<IoStep>)
    returns (received: seq<Packet>)
    requires AllWellFormed(items)
    ensures received <= items && (usizeBytes != 4 ==> received == [])
    ensures (&& usizeBytes == 4
             && NoFault(writing) && Moves(writing) > |FrameAll(items)| + |items|
             && NoFault(reading) && Moves(reading) >= |FrameAll(items)|) ==> received == items
  {
    hide FrameAll, Moves, NoFault, Parse, AllWellFormed, Complete;
    var near := new Socket([], writing);
    var writer := new Writer(near, usizeBytes);
    var done := writer.SendAll(items);
    assert near.outgoing <= FrameAll(items) by { assert [] + FrameAll(items) == FrameAll(items); }
    ghost var bytes := near.outgoing;
    var far := new Socket(near.outgoing, reading);
    var reader := new Reader(far);
    var failed;
    received, failed := reader.PollAll();
    assert [] + bytes == bytes && [] + received == received;
    assert reader.consumed + far.incoming == bytes;
    reader.ReadsWhatWasWritten(items);
    if usizeBytes != 4 {
      NoneIsWellFormed();
      FrameAllCons([]);
      reader.ReadsWhatWasWritten([]);
    }
  }

  lemma NoneIsWellFormed()
    ensures AllWellFormed([])
  {
  }

  lemma Written(sent: Bytes, data: Bytes, n: nat, rest: Bytes)
    requires n <= |data|
    ensures sent + data[..n] + (data[n..] + rest) == sent + (data + rest)
    ensures rest == [] ==> sent + data[..n] + data[n..] == sent + data
  {
    assert data[..n] + data[n..] == data;
  }

  lemma Copied(before: Bytes, after: Bytes, start: nat, data: Bytes)
    requires |before| == |after| && start + |data| <= |after|
    requires forall i :: 0 <= i < start ==> after[i] == before[i]
    requires forall i :: 0 <= i < |data| ==> after[start + i] == data[i]
    ensures after[..start + |data|] == before[..start] + data
  {
    forall i | start <= i < start + |data| ensures after[i] == (before[..start] + data)[i] {
      assert after[start + (i - start)] == data[i - start];
    }
  }

  lemma MoreRead(frames: Bytes, header: Bytes, payload: Bytes, data: Bytes)
    ensures frames + (header + payload) + data == frames + (header + (payload + data))
  {
  }

  lemma NotYetComplete(header: Bytes, payload: Bytes)
    requires |header| == EXTENDED_HEADER_SIZE && |payload| < PayloadSize(header)
    ensures !Complete(header + payload)
  {
    HeaderSize(header, payload);
  }

  lemma HeaderSize(header: Bytes, payload: Bytes)
    requires |header| == EXTENDED_HEADER_SIZE
    ensures PayloadSize(header + payload) == PayloadSize(header)
  {
    assert (header + payload)[HEADER_SIZE..EXTENDED_HEADER_SIZE] == header[HEADER_SIZE..EXTENDED_HEADER_SIZE];
  }

  lemma OneFrame(header: Bytes, payload: Bytes)
    requires |header| == EXTENDED_HEADER_SIZE && |payload| == PayloadSize(header)
    ensures var p := Packet(PacketHeader(header[..ID_SIZE], header[ID_SIZE]), payload);
            p.WellFormed() && Frame(p) == header + payload
  {
    BigEndianUnique(header[HEADER_SIZE..EXTENDED_HEADER_SIZE]);
    assert header == header[..ID_SIZE] + [header[ID_SIZE]] + header[HEADER_SIZE..EXTENDED_HEADER_SIZE];
  }

  lemma {:induction false} FrameAllMore(packets: seq<Packet>, p: Packet)
    requires AllWellFormed(packets) && p.WellFormed()
    ensures AllWellFormed(packets + [p]) && FrameAll(packets + [p]) == FrameAll(packets) + Frame(p)
  {
    if packets == [] {
      assert [] + [p] == [p] && [p][1..] == [];
    } else {
      assert packets[0] in packets && forall q :: q in packets[1..] ==> q in packets;
      FrameAllMore(packets[1..], p);
      assert (packets + [p])[1..] == packets[1..] + [p] && (packets + [p])[0] == packets[0];
      assert Frame(packets[0]) + (FrameAll(packets[1..]) + Frame(p)) == Frame(packets[0]) + FrameAll(packets[1..]) + Frame(p);
    }
  }
}
