/** The TCP tunnel: messages with a stream id over one byte stream, and replies matched to requests by that
    id across reconnects. */
module TcpFraming {
  import opened Prelude
  import opened Protocol

  const ID_SIZE := 8
  const HDR_SIZE := 12      // id and payload length
  const ONEWAY := 0

  datatype Message = Message(id: nat, payload: bytes)

  // -------------------------------------------------------------------------------------- framing

  predicate Packable(m: Message) { m.id < Pow256(ID_SIZE) && |m.payload| < Pow256(LEN_SIZE) }

  /** None: a number that does not fit its field. */
  function Pack(m: Message): Option<bytes> {
    if Packable(m) then Some(BigEndian(m.id, ID_SIZE) + BigEndian(|m.payload|, LEN_SIZE) + m.payload) else None
  }

  function PayloadEnd(data: bytes): nat
    requires |data| >= HDR_SIZE
  {
    HDR_SIZE + FromBigEndian(data[ID_SIZE..HDR_SIZE])
  }

  predicate Arrived(data: bytes) { |data| >= HDR_SIZE && |data| >= PayloadEnd(data) }

  function FirstMessage(data: bytes): Message
    requires Arrived(data)
  {
    Message(FromBigEndian(data[..ID_SIZE]), data[HDR_SIZE..PayloadEnd(data)])
  }

  /** What can be read of the bytes so far, and what stays in the reader. */
  function ReadAll(data: bytes): (seq<Message>, bytes)
    decreases |data|
  {
    if !Arrived(data) then ([], data)
    else
      var (more, rest) := ReadAll(data[PayloadEnd(data)..]);
      ([FirstMessage(data)] + more, rest)
  }

  function PackAll(ms: seq<Message>): bytes
    requires forall m <- ms :: Packable(m)
  {
    if ms == [] then [] else Pack(ms[0]).value + PackAll(ms[1..])
  }

  /** Any message can be packed whose id fits 8 bytes and whose payload can be counted in 4. */
  lemma PackedExactlyWhen(m: Message)
    ensures Pack(m).Some? <==> m.id < 0x1_0000_0000_0000_0000 && |m.payload| < 0x1_0000_0000
    ensures Pack(m).Some? ==> |Pack(m).value| == 12 + |m.payload|
  {
    assert Pow256(2) == 0x1_0000 && Pow256(4) == 0x1_0000_0000;
    assert Pow256(6) == 0x1_0000_0000_0000 && Pow256(8) == 0x1_0000_0000_0000_0000;
  }

  lemma PackedArrives(m: Message, more: bytes)
    requires Packable(m)
    ensures var data := Pack(m).value + more;
            Arrived(data) && FirstMessage(data) == m && data[PayloadEnd(data)..] == more
  {
    var id, len := BigEndian(m.id, ID_SIZE), BigEndian(|m.payload|, LEN_SIZE);
    var data := Pack(m).value + more;
    BigEndianRoundTrip(m.id, ID_SIZE);
    BigEndianRoundTrip(|m.payload|, LEN_SIZE);
    assert data[..ID_SIZE] == id;
    assert data[ID_SIZE..HDR_SIZE] == len;
    assert data[HDR_SIZE..PayloadEnd(data)] == m.payload;
  }

  /** More bytes do not change the messages already complete. */
  lemma ArrivedExtends(data: bytes, more: bytes)
    requires Arrived(data)
    ensures Arrived(data + more) && FirstMessage(data + more) == FirstMessage(data)
    ensures (data + more)[PayloadEnd(data + more)..] == data[PayloadEnd(data)..] + more
  {
    assert (data + more)[..ID_SIZE] == data[..ID_SIZE];
    assert (data + more)[ID_SIZE..HDR_SIZE] == data[ID_SIZE..HDR_SIZE];
    var end := PayloadEnd(data);
    assert (data + more)[HDR_SIZE..end] == data[HDR_SIZE..end];
  }

  /** Reading in two goes is reading all at once. */
  lemma {:induction false} ReadSplits(data: bytes, more: bytes)
    ensures var first := ReadAll(data);
            var second := ReadAll(first.1 + more);
            ReadAll(data + more) == (first.0 + second.0, second.1)
    decreases |data|
  {
    if Arrived(data) {
      ArrivedExtends(data, more);
      var tail := data[PayloadEnd(data)..];
      ReadSplits(tail, more);
      hide Arrived, FirstMessage, PayloadEnd;
      var second := ReadAll(ReadAll(tail).1 + more);
      assert [FirstMessage(data)] + (ReadAll(tail).0 + second.0) == ([FirstMessage(data)] + ReadAll(tail).0) + second.0;
    } else {
      assert [] + ReadAll(data + more).0 == ReadAll(data + more).0;
    }
  }

  lemma ReadOne(m: Message, tail: bytes)
    requires Packable(m)
    ensures ReadAll(Pack(m).value + tail) == ([m] + ReadAll(tail).0, ReadAll(tail).1)
  {
    PackedArrives(m, tail);
    hide Arrived, FirstMessage, PayloadEnd, Pack, Packable;
  }

  lemma PackAllFirst(ms: seq<Message>, more: bytes)
    requires ms != [] && forall m <- ms :: Packable(m)
    ensures forall m <- ms[1..] :: Packable(m)
    ensures PackAll(ms) + more == Pack(ms[0]).value + (PackAll(ms[1..]) + more)
  {
    hide Pack, Packable;
  }

  lemma {:induction false} ReadPacked(ms: seq<Message>, more: bytes)
    requires forall m <- ms :: Packable(m)
    ensures ReadAll(PackAll(ms) + more) == (ms + ReadAll(more).0, ReadAll(more).1)
  {
    hide ReadAll, Pack, Packable;
    if ms == [] {
      assert PackAll(ms) + more == more;
      assert ms + ReadAll(more).0 == ReadAll(more).0;
    } else {
      PackAllFirst(ms, more);
      ReadPacked(ms[1..], more);
      hide PackAll;
      ReadOne(ms[0], PackAll(ms[1..]) + more);
      assert [ms[0]] + (ms[1..] + ReadAll(more).0) == ms + ReadAll(more).0;
    }
  }

  /** The messages a reader has produced after some chunks, and what it holds. */
  function ReadChunks(chunks: seq<bytes>): (seq<Message>, bytes) {
    if chunks == [] then ([], [])
    else
      var (before, held) := ReadChunks(chunks[..|chunks| - 1]);
      var (more, rest) := ReadAll(held + chunks[|chunks| - 1]);
      (before + more, rest)
  }

  lemma {:induction false} ChunksDoNotMatter(chunks: seq<bytes>)
    ensures ReadChunks(chunks) == ReadAll(Flatten(chunks))
  {
    if chunks == [] {
      assert !Arrived([]);
    } else {
      ChunksDoNotMatter(chunks[..|chunks| - 1]);
      ReadSplits(Flatten(chunks[..|chunks| - 1]), chunks[|chunks| - 1]);
      hide ReadAll;
    }
  }

  /** Packed messages are read back as the same sequence under any chunking; while bytes are still
      missing, as a prefix of it. */
  lemma PackedMessagesAreReadBack(ms: seq<Message>, chunks: seq<bytes>)
    requires forall m <- ms :: Packable(m)
    requires Flatten(chunks) <= PackAll(ms)
    ensures ReadChunks(chunks).0 <= ms
    ensures Flatten(chunks) == PackAll(ms) ==> ReadChunks(chunks) == (ms, [])
  {
    ChunksDoNotMatter(chunks);
    var data := Flatten(chunks);
    var more := PackAll(ms)[|data|..];
    assert data + more == PackAll(ms);
    ReadSplits(data, more);
    ReadPacked(ms, []);
    assert PackAll(ms) + [] == PackAll(ms);
    assert !Arrived([]);
    hide ReadChunks, Arrived;
    assert ms + [] == ms;
  }
}
