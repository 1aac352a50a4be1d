/** A pass-through stream as either end of the tunnel sees it: chunks queued by the protocol's event
    handler, read back one at a time by the relay task.  An empty chunk in the queue is the end mark. */
module QuicStreams {
  import opened Prelude

  /** The stream's fields as a value, with `got`: everything its reader has taken and not put back. */
  datatype StreamVal = StreamVal(
    chunks: seq<bytes>,
    head: bytes,
    eof: bool,
    closed: bool,
    sent: bytes,
    fin: bool,
    got: bytes)

  const FRESH := StreamVal([], [], false, false, [], false, [])

  function Feed(s: StreamVal, data: bytes, end: bool): StreamVal {
    var s1 := if data != [] then s.(chunks := s.chunks + [data]) else s;
    if end then s1.(chunks := s1.chunks + [[]]) else s1
  }

  function TakeBack(got: bytes, data: bytes): bytes {
    if |data| <= |got| then got[..|got| - |data|] else []
  }

  function Unread(s: StreamVal, data: bytes): StreamVal {
    s.(head := data + s.head, got := TakeBack(s.got, data))
  }

  function Fail(s: StreamVal): StreamVal {
    Feed(s.(closed := true), [], true)
  }

  /** Whether read() returns at once; otherwise it waits for the next chunk. */
  predicate Readable(s: StreamVal) {
    s.head != [] || s.eof || s.chunks != []
  }

  function ReadResult(s: StreamVal): bytes
    requires Readable(s)
  {
    if s.head != [] then s.head else if s.eof then [] else s.chunks[0]
  }

  function AfterRead(s: StreamVal): StreamVal
    requires Readable(s)
  {
    if s.head != [] then s.(head := [], got := s.got + s.head)
    else if s.eof then s
    else s.(chunks := s.chunks[1..], eof := s.chunks[0] == [], got := s.got + s.chunks[0])
  }

  /** Bytes a writer may still add: None is the ConnectionError of a closed or finished stream. */
  function Send(s: StreamVal, data: bytes, end: bool): Option<StreamVal> {
    if s.closed || s.fin then None else Some(s.(sent := s.sent + data, fin := end))
  }

  // ------------------------------------------------------------------ what the reader will still see

  function UntilEnd(chunks: seq<bytes>): bytes {
    if chunks == [] || chunks[0] == [] then [] else chunks[0] + UntilEnd(chunks[1..])
  }

  function Pending(s: StreamVal): bytes {
    s.head + if s.eof then [] else UntilEnd(s.chunks)
  }

  predicate Ended(s: StreamVal) {
    s.eof || [] in s.chunks
  }

  /** Everything the reader has taken or can still take. */
  function Total(s: StreamVal): bytes {
    s.got + Pending(s)
  }

  lemma {:induction false} UntilEndAppend(chunks: seq<bytes>, data: bytes)
    ensures [] in chunks ==> UntilEnd(chunks + [data]) == UntilEnd(chunks)
    ensures [] !in chunks ==> UntilEnd(chunks + [data]) == UntilEnd(chunks) + data
  {
    if chunks == [] {
      assert UntilEnd([data]) == data;
    } else if chunks[0] != [] {
      UntilEndAppend(chunks[1..], data);
      assert (chunks + [data])[1..] == chunks[1..] + [data];
      assert [] in chunks <==> [] in chunks[1..];
      assert (chunks[0] + UntilEnd(chunks[1..])) + data == chunks[0] + (UntilEnd(chunks[1..]) + data);
    }
  }

  lemma AppendTotal(s: StreamVal, chunk: bytes)
    ensures var r := s.(chunks := s.chunks + [chunk]);
            && Total(r) == (if Ended(s) then Total(s) else Total(s) + chunk)
            && (Ended(r) <==> Ended(s) || chunk == [])
  {
    UntilEndAppend(s.chunks, chunk);
    assert (s.chunks + [chunk])[|s.chunks|] == chunk;
    assert forall x :: x in s.chunks + [chunk] <==> x in s.chunks || x == chunk;
    hide UntilEnd;
    if !Ended(s) {
      assert Total(s.(chunks := s.chunks + [chunk])) == s.got + (s.head + (UntilEnd(s.chunks) + chunk));
    }
  }

  /** Data queued before the end mark reaches the reader, in order; data after it never does. */
  lemma FeedTotal(s: StreamVal, data: bytes, end: bool)
    ensures Total(Feed(s, data, end)) == if Ended(s) then Total(s) else Total(s) + data
    ensures Ended(Feed(s, data, end)) <==> Ended(s) || end
  {
    var s1 := if data != [] then s.(chunks := s.chunks + [data]) else s;
    AppendTotal(s, data);
    AppendTotal(s1, []);
    hide Total, Ended;
  }

  /** Reading moves bytes from pending to got and loses none; an empty result means that nothing is
      left and that the end mark was reached. */
  lemma ReadTotal(s: StreamVal)
    requires Readable(s)
    ensures Total(AfterRead(s)) == Total(s)
    ensures Ended(AfterRead(s)) <==> Ended(s)
    ensures AfterRead(s).got == s.got + ReadResult(s)
    ensures ReadResult(s) == [] ==> Pending(s) == [] && Ended(s)
  {
    if s.head == [] && !s.eof {
      assert s.chunks == [s.chunks[0]] + s.chunks[1..];
    }
  }

  /** Putting back the tail of what was read changes nothing for whoever reads next. */
  lemma UnreadTotal(s: StreamVal, kept: bytes, data: bytes)
    requires s.got == kept + data
    ensures Unread(s, data).got == kept && Total(Unread(s, data)) == Total(s)
    ensures Ended(Unread(s, data)) <==> Ended(s)
  {}

  lemma FailTotal(s: StreamVal)
    ensures Total(Fail(s)) == Total(s) && Ended(Fail(s)) && Fail(s).closed
  {
    FeedTotal(s.(closed := true), [], true);
    assert Total(s.(closed := true)) == Total(s);
  }

  // -------------------------------------------------------------------------------------- the object

  class QuicStream {
    var chunks: seq<bytes>
    var head: bytes
    var eof: bool
    var closed: bool
    var sent: bytes
    var fin: bool
    ghost var got: bytes

    ghost function Value(): StreamVal
      reads this
    {
      StreamVal(chunks, head, eof, closed, sent, fin, got)
    }

    constructor ()
      ensures Value() == FRESH
    {
      chunks, head, eof, closed, sent, fin := [], [], false, false, [], false;
      got := [];
    }

    method FeedChunk(data: bytes, end: bool)
      modifies this
      ensures Value() == Feed(old(Value()), data, end)
    {
      if data != [] {
        chunks := chunks + [data];
      }
      if end {
        chunks := chunks + [[]];
      }
    }

    method PutBack(data: bytes)
      modifies this
      ensures Value() == Unread(old(Value()), data)
    {
      head := data + head;
      got := TakeBack(got, data);
    }

    /** One read(); None while it has to wait. */
    method Read() returns (r: Option<bytes>)
      modifies this
      ensures r.Some? <==> Readable(old(Value()))
      ensures r.Some? ==> r.value == ReadResult(old(Value())) && Value() == AfterRead(old(Value()))
      ensures r.None? ==> Value() == old(Value())
      ensures Total(Value()) == Total(old(Value()))
    {
      ghost var before := Value();
      if before.head != [] || before.eof || before.chunks != [] {
        ReadTotal(before);
      }
      if head != [] {
        r := Some(head);
        head := [];
      } else if eof {
        return Some([]);
      } else if chunks == [] {
        return None;
      } else {
        r := Some(chunks[0]);
        chunks := chunks[1..];
        eof := r.value == [];
      }
      got := got + r.value;
    }

    /** write() and write_eof(); false is the ConnectionError. */
    method SendData(data: bytes, end: bool) returns (ok: bool)
      modifies this
      ensures ok <==> Send(old(Value()), data, end).Some?
      ensures Value() == if ok then Send(old(Value()), data, end).value else old(Value())
    {
      if closed || fin {
        return false;
      }
      sent, fin := sent + data, end;
      ok := true;
    }

    method FailReads()
      modifies this
      ensures Value() == Fail(old(Value()))
    {
      closed := true;
      FeedChunk([], true);
    }

    /** from_tunnel until it has to wait: everything the queue holds moves to the writer, in order, and
        the writer is finished exactly when the end mark came up. */
    method CopyOut(out: bytes) returns (written: bytes, ended: bool)
      modifies this
      ensures written == out + Pending(old(Value()))
      ensures ended <==> Ended(old(Value()))
      ensures Value().got == old(Value()).got + Pending(old(Value()))
      ensures Pending(Value()) == []
    {
      written, ended := out, false;
      ghost var start := Value();
      while true
        invariant Total(Value()) == Total(start)
        invariant Ended(Value()) <==> Ended(start)
        invariant written + Pending(Value()) == out + Pending(start)
        invariant !ended
        decreases Left(Value())
      {
        ghost var before := Value();
        var r := Read();
        hide Total, Ended, Pending, Left;
        if r.None? {
          NothingToRead(before);
          break;
        }
        ReadStep(before);
        if r.value == [] {
          ended := true;
          break;
        }
        assert (written + r.value) + Pending(Value()) == written + (r.value + Pending(Value()));
        written := written + r.value;
      }
      CopiedAll(start, Value());
    }
  }

  /** How much reading is left to do. */
  ghost function Left(s: StreamVal): nat {
    |s.head| + |Flatten(s.chunks)| + 2 * |s.chunks| + if s.eof then 0 else 1
  }

  lemma NothingToRead(s: StreamVal)
    requires !Readable(s)
    ensures Pending(s) == [] && !Ended(s)
  {}

  lemma ReadStep(s: StreamVal)
    requires Readable(s)
    ensures var r, after := ReadResult(s), AfterRead(s);
            && Total(after) == Total(s) && (Ended(after) <==> Ended(s))
            && r + Pending(after) == Pending(s)
            && (if r == [] then Pending(after) == [] && Ended(s) else Left(after) < Left(s))
  {
    ReadTotal(s);
    LeftShrinks(s);
    var r, after := ReadResult(s), AfterRead(s);
    hide ReadResult, AfterRead, Left, Pending, Ended;
    assert (s.got + r) + Pending(after) == s.got + (r + Pending(after));
    assert |r + Pending(after)| == |Pending(s)|;
  }

  lemma LeftShrinks(s: StreamVal)
    requires Readable(s)
    ensures ReadResult(s) != [] ==> Left(AfterRead(s)) < Left(s)
  {
    hide Total, Pending, Ended;
    FlattenUnder(s.chunks);
    hide Flatten;
  }

  lemma CopiedAll(start: StreamVal, after: StreamVal)
    requires Total(after) == Total(start) && Pending(after) == []
    ensures after.got == start.got + Pending(start)
  {}

  lemma {:induction false} FlattenUnder(chunks: seq<bytes>)
    ensures chunks != [] ==> |Flatten(chunks)| == |chunks[0]| + |Flatten(chunks[1..])|
  {
    if |chunks| > 1 {
      FlattenUnder(chunks[..|chunks| - 1]);
      assert chunks[1..][..|chunks| - 2] == chunks[..|chunks| - 1][1..];
    }
  }
}
