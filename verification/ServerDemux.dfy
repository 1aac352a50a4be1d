/** The server's side of the QUIC tunnel: telling whole frames from CONNECT streams while their bytes
    still arrive.  StreamView is everything the protocol object knows about one stream; Step is what
    one event does to it; ServerProtocol is the object, whose dictionaries hold all streams at once. */
module ServerDemux {
  import opened Prelude
  import opened Protocol
  import opened QuicStreams

  /** What the protocol starts or gives up: a handler task, a connect task, a 501 answer, a dropped
      malformed frame, or an exception that leaves the event handler. */
  datatype Action = Dispatch(frame: Frame) | Open(frame: Frame) | Refuse(frame: Frame) | Malformed | Raised

  datatype StreamView = StreamView(
    buffer: Option<bytes>,       // in the assembler
    framed: bool,                // known to carry one whole frame
    routed: bool,                // in the relay table
    relay: Option<StreamVal>,    // the stream handed to the connect task
    actions: seq<Action>)

  const UNSEEN := StreamView(None, false, false, None, [])

  datatype StreamEvent = Data(data: bytes, end: bool) | Reset | Terminated | Read

  predicate IsBidirectional(id: nat) { id / 2 % 2 == 0 }

  const REFUSAL := Frame(Response, map["status" := JNum(501, 0)], [])

  /** A new relay stream, and the 501 answer when there is nobody to connect; nothing can be answered on a
      stream that only the client may send on. */
  function OpenPassThrough(c: Codec, handler: bool, bidi: bool, v: StreamView, f: Frame, rest: bytes,
                           end: bool): StreamView {
    var s := Feed(FRESH, rest, end);
    var v1 := v.(routed := v.routed || !end, relay := Some(s));
    if handler then v1.(actions := v1.actions + [Open(f)])
    else if !bidi then v1.(actions := v1.actions + [Raised])
    else match Wire(c, REFUSAL, false)
         case None => v1.(actions := v1.actions + [Raised])
         case Some(w) => v1.(relay := Some(s.(sent := s.sent + w, fin := true)), actions := v1.actions + [Refuse(f)])
  }

  /** The final event: all bytes are there. */
  function TakeWhole(c: Codec, handler: bool, bidi: bool, v: StreamView, buf: bytes): StreamView {
    match Decode(c, buf) {
      case ValueError => v.(actions := v.actions + [Malformed])
      case OtherError => v.(actions := v.actions + [Raised])
      case Ok(f) =>
        if f.kind.Connect? then OpenPassThrough(c, handler, bidi, v, f, [], true)
        else v.(actions := v.actions + [Dispatch(f)])
    }
  }

  /** Any earlier event: once the header is there, CONNECT streams switch to relaying. */
  function TakePart(c: Codec, handler: bool, bidi: bool, v: StreamView, buf: bytes): StreamView {
    if v.framed || !bidi then v
    else match SplitHead(c, buf) {
      case Incomplete => v
      case Bad(_) => v.(actions := v.actions + [Raised])
      case Complete(f, rest) =>
        if f.kind.Connect? then OpenPassThrough(c, handler, bidi, v.(buffer := None), f, rest, false)
        else v.(framed := true)
    }
  }

  function StepData(c: Codec, handler: bool, bidi: bool, v: StreamView, data: bytes, end: bool): StreamView {
    if v.routed && v.relay.Some? then v.(routed := !end, relay := Some(Feed(v.relay.value, data, end)))
    else
      var buf := (if v.buffer.Some? then v.buffer.value else []) + data;
      if end then TakeWhole(c, handler, bidi, v.(buffer := None, framed := false), buf)
      else TakePart(c, handler, bidi, v.(buffer := Some(buf)), buf)
  }

  function Step(c: Codec, handler: bool, bidi: bool, v: StreamView, e: StreamEvent): StreamView {
    match e {
      case Data(data, end) => StepData(c, handler, bidi, v, data, end)
      case Read =>
        if v.relay.Some? && Readable(v.relay.value) then v.(relay := Some(AfterRead(v.relay.value))) else v
      case _ => // reset by the peer, or the connection ended
        if v.routed && v.relay.Some? then v.(routed := false, relay := Some(Fail(v.relay.value))) else v
    }
  }

  function Run(c: Codec, handler: bool, bidi: bool, es: seq<StreamEvent>): StreamView {
    if es == [] then UNSEEN
    else Step(c, handler, bidi, Run(c, handler, bidi, es[..|es| - 1]), es[|es| - 1])
  }

  /** A stream is in the assembler or in the relay table, never both, over every run. */
  ghost predicate Exclusive(v: StreamView) {
    && (v.routed ==> v.relay.Some? && v.buffer.None? && !v.framed)
    && (v.framed ==> v.buffer.Some?)
  }

  lemma {:induction false} AlwaysExclusive(c: Codec, handler: bool, bidi: bool, es: seq<StreamEvent>)
    ensures Exclusive(Run(c, handler, bidi, es))
  {
    if es != [] {
      AlwaysExclusive(c, handler, bidi, es[..|es| - 1]);
      StepExclusive(c, handler, bidi, Run(c, handler, bidi, es[..|es| - 1]), es[|es| - 1]);
      hide Step, Exclusive;
    }
  }

  lemma StepExclusive(c: Codec, handler: bool, bidi: bool, v: StreamView, e: StreamEvent)
    requires Exclusive(v)
    ensures Exclusive(Step(c, handler, bidi, v, e))
  {
    hide Decode, SplitHead, Wire, Feed, Fail, AfterRead, Readable;
  }

  // ----------------------------------------------------------------- one stream, any chunking of it

  /** All bytes of the stream so far. */
  function Arrived(es: seq<StreamEvent>): bytes {
    if es == [] then []
    else
      var before, last := Arrived(es[..|es| - 1]), es[|es| - 1];
      if last.Data? then before + last.data else before
  }

  /** The bytes of every event but the final one. */
  function ArrivedEarly(es: seq<StreamEvent>): bytes {
    if es == [] then []
    else
      var before, last := ArrivedEarly(es[..|es| - 1]), es[|es| - 1];
      if last.Data? && !last.end then before + last.data else before
  }

  predicate Finished(es: seq<StreamEvent>) {
    exists e <- es :: e.Data? && e.end
  }

  /** What an ordered, reliable stream that is not reset delivers: data, then one final event, with
      the relay task's reads anywhere in between. */
  predicate Reliable(es: seq<StreamEvent>) {
    es == [] ||
    var front, last := es[..|es| - 1], es[|es| - 1];
    Reliable(front) && (last.Read? || (last.Data? && !Finished(front)))
  }

  lemma FinishedSnoc(es: seq<StreamEvent>)
    requires es != []
    ensures Finished(es) <==> Finished(es[..|es| - 1]) || (es[|es| - 1].Data? && es[|es| - 1].end)
  {
    var front, last := es[..|es| - 1], es[|es| - 1];
    assert es == front + [last];
  }

  predicate Connects(c: Codec, data: bytes) {
    SplitHead(c, data).Complete? && SplitHead(c, data).frame.kind.Connect?
  }

  lemma {:induction false} EarlyIsPrefix(es: seq<StreamEvent>)
    requires Reliable(es)
    ensures ArrivedEarly(es) <= Arrived(es)
    ensures !Finished(es) ==> ArrivedEarly(es) == Arrived(es)
  {
    if es != [] {
      EarlyIsPrefix(es[..|es| - 1]);
      FinishedSnoc(es);
    }
  }

  /** What holds after every prefix of a reliable stream, whatever its chunks. */
  ghost predicate Progress(c: Codec, bidi: bool, all: bytes, early: bytes, fin: bool, v: StreamView) {
    if bidi && Connects(c, early) then Relayed(c, all, early, fin, v)
    else if !fin then Gathering(c, all, v)
    else Whole(c, all, v)
  }

  ghost predicate Relayed(c: Codec, all: bytes, early: bytes, fin: bool, v: StreamView) {
    && v.buffer.None? && !v.framed && v.relay.Some?
    && (v.routed <==> !fin)
    && SplitHead(c, early).Complete?
    && v.actions == [Open(SplitHead(c, early).frame)]
    && SplitHead(c, all).Complete? && Total(v.relay.value) == SplitHead(c, all).rest
    && (Ended(v.relay.value) <==> fin)
  }

  ghost predicate Gathering(c: Codec, all: bytes, v: StreamView) {
    && v.relay.None? && !v.routed
    && (v.buffer.Some? ==> v.buffer.value == all)
    && (v.buffer.None? ==> all == [])
    && (v.framed ==> SplitHead(c, all).Complete? && !SplitHead(c, all).frame.kind.Connect?)
    && (!SplitHead(c, all).Bad? ==> v.actions == [])
  }

  ghost predicate Whole(c: Codec, all: bytes, v: StreamView) {
    && v.buffer.None? && !v.routed && !v.framed
    && (v.relay.Some? <==> Decode(c, all).Ok? && Decode(c, all).value.kind.Connect?)
    && (v.relay.Some? ==> Total(v.relay.value) == [] && Ended(v.relay.value))
    && (Decode(c, all).Ok? ==>
          v.actions == if v.relay.Some? then [Open(Decode(c, all).value)] else [Dispatch(Decode(c, all).value)])
  }

  lemma {:induction false} ProgressAlways(c: Codec, bidi: bool, es: seq<StreamEvent>)
    requires Reliable(es)
    ensures Progress(c, bidi, Arrived(es), ArrivedEarly(es), Finished(es), Run(c, true, bidi, es))
  {
    if es != [] {
      var front, last := es[..|es| - 1], es[|es| - 1];
      ProgressAlways(c, bidi, front);
      FinishedSnoc(es);
      EarlyIsPrefix(front);
      var v := Run(c, true, bidi, front);
      if last.Read? {
        if v.relay.Some? && Readable(v.relay.value) {
          ReadTotal(v.relay.value);
        }
      } else if bidi && Connects(c, ArrivedEarly(front)) {
        ProgressRelayed(c, Arrived(front), ArrivedEarly(front), v, last.data, last.end);
      } else if last.end {
        ProgressWhole(c, Arrived(front), v, last.data);
      } else {
        ProgressPart(c, bidi, Arrived(front), v, last.data);
      }
    }
  }

  lemma ProgressRelayed(c: Codec, all: bytes, early: bytes, v: StreamView, data: bytes, end: bool)
    requires Connects(c, early) && Relayed(c, all, early, false, v)
    ensures Relayed(c, all + data, early, end, StepData(c, true, true, v, data, end))
    ensures Connects(c, early + data)
    ensures Relayed(c, all + data, early + data, end, StepData(c, true, true, v, data, end))
  {
    FeedTotal(v.relay.value, data, end);
    SplitHeadExtends(c, all, data);
    SplitHeadExtends(c, early, data);
  }

  lemma ProgressWhole(c: Codec, all: bytes, v: StreamView, data: bytes)
    requires Gathering(c, all, v)
    ensures forall bidi :: Whole(c, all + data, StepData(c, true, bidi, v, data, true))
  {
    var buf := (if v.buffer.Some? then v.buffer.value else []) + data;
    assert buf == all + data;
    if HeaderArrived(all) {
      SplitHeadExtends(c, all, data);
    }
    SplitHeadAgreesWithDecode(c, buf);
    FeedTotal(FRESH, [], true);
  }

  lemma ProgressPart(c: Codec, bidi: bool, all: bytes, v: StreamView, data: bytes)
    requires Gathering(c, all, v) && !(bidi && Connects(c, all))
    ensures Progress(c, bidi, all + data, all + data, false, StepData(c, true, bidi, v, data, false))
  {
    var buf := (if v.buffer.Some? then v.buffer.value else []) + data;
    assert buf == all + data;
    if HeaderArrived(all) {
      SplitHeadExtends(c, all, data);
    }
    if bidi && Connects(c, buf) {
      FeedTotal(FRESH, SplitHead(c, buf).rest, false);
    }
  }

  /** A header that was complete early reads the same once everything has arrived. */
  lemma EarlyHead(c: Codec, early: bytes, all: bytes)
    requires early <= all && HeaderArrived(early)
    ensures SplitHead(c, all) == Extend(SplitHead(c, early), all[|early|..])
  {
    assert early + all[|early|..] == all;
    SplitHeadExtends(c, early, all[|early|..]);
  }

  /** A stream that decodes to anything but CONNECT is dispatched exactly once, as the decoding of all
      its bytes, and never relayed: for every split into chunks. */
  lemma FramedStreamDispatchedOnce(c: Codec, bidi: bool, es: seq<StreamEvent>)
    requires Reliable(es) && Finished(es)
    requires Decode(c, Arrived(es)).Ok? && !Decode(c, Arrived(es)).value.kind.Connect?
    ensures Run(c, true, bidi, es).actions == [Dispatch(Decode(c, Arrived(es)).value)]
    ensures Run(c, true, bidi, es).relay.None?
  {
    ProgressAlways(c, bidi, es);
    SplitHeadAgreesWithDecode(c, Arrived(es));
    EarlyIsPrefix(es);
    if HeaderArrived(ArrivedEarly(es)) {
      EarlyHead(c, ArrivedEarly(es), Arrived(es));
    }
  }

  /** A CONNECT stream is opened exactly once, and its reader takes exactly the bytes after the
      header and then the end, if and only if the header was complete before the final event or
      nothing follows it: a header that only completes together with the end loses what follows. */
  lemma {:induction false} ConnectStreamRelayedOnce(c: Codec, es: seq<StreamEvent>)
    requires Reliable(es) && Finished(es)
    requires Decode(c, Arrived(es)).Ok? && Decode(c, Arrived(es)).value.kind.Connect?
    ensures var v := Run(c, true, true, es);
            && |v.actions| == 1 && v.actions[0].Open? && v.actions[0].frame.kind.Connect?
            && v.relay.Some? && Ended(v.relay.value) && !v.routed && v.buffer.None?
    ensures SplitHead(c, Arrived(es)).Complete?
    ensures var rest := SplitHead(c, Arrived(es)).rest;
            Total(Run(c, true, true, es).relay.value) == rest <==> HeaderArrived(ArrivedEarly(es)) || rest == []
  {
    var early, all := ArrivedEarly(es), Arrived(es);
    ProgressAlways(c, true, es);
    SplitHeadAgreesWithDecode(c, all);
    EarlyIsPrefix(es);
    if HeaderArrived(early) {
      EarlyHead(c, early, all);
      assert Connects(c, early);
    }
  }

  /** At every moment in between, the reader's bytes are a prefix of those after the header. */
  lemma ConnectStreamNeverReorders(c: Codec, es: seq<StreamEvent>)
    requires Reliable(es) && Run(c, true, true, es).relay.Some?
    ensures SplitHead(c, Arrived(es)).Complete?
    ensures Run(c, true, true, es).relay.value.got <= SplitHead(c, Arrived(es)).rest
  {
    ProgressAlways(c, true, es);
    SplitHeadAgreesWithDecode(c, Arrived(es));
  }

  /** Reading goes on to the end: when a read changes nothing any more, the reader of a CONNECT stream has all that
      has arrived behind the header. */
  lemma ConnectStreamIsReadThrough(c: Codec, es: seq<StreamEvent>)
    requires Reliable(es) && Connects(c, ArrivedEarly(es)) && Run(c, true, true, es + [Read]) == Run(c, true, true, es)
    ensures Run(c, true, true, es).relay.Some? && SplitHead(c, Arrived(es)).Complete?
    ensures Run(c, true, true, es).relay.value.got == SplitHead(c, Arrived(es)).rest
  {
    ProgressAlways(c, true, es);
    RunSnoc(c, true, true, es, Read);
    var s := Run(c, true, true, es).relay.value;
    if Readable(s) {
      ReadTotal(s);
      ReadAgain(s);
    } else {
      NothingToRead(s);
    }
  }

  lemma ReadAgain(s: StreamVal)
    requires Readable(s) && AfterRead(s) == s
    ensures Pending(s) == []
  {
    ReadTotal(s);
    assert |s.got + ReadResult(s)| == |s.got|;
  }

  lemma RunSnoc(c: Codec, handler: bool, bidi: bool, es: seq<StreamEvent>, e: StreamEvent)
    ensures Run(c, handler, bidi, es + [e]) == Step(c, handler, bidi, Run(c, handler, bidi, es), e)
  {
    var all := es + [e];
    assert all[..|all| - 1] == es;
  }

  // ---------------------------------------------------------------------------- what is not well-formed

  ghost predicate OnlyRaised(actions: seq<Action>) { forall a <- actions :: a == Raised }

  /** Until the header is complete and sound only exceptions come of a stream; once it is, it is known whether the
      stream is framed, on streams that could have been a CONNECT. */
  ghost predicate Undecided(c: Codec, bidi: bool, all: bytes, v: StreamView) {
    && OnlyRaised(v.actions)
    && (v.framed <==> bidi && v.buffer.Some? && SplitHead(c, all).Complete?)
  }

  lemma {:induction false} UndecidedAlways(c: Codec, bidi: bool, es: seq<StreamEvent>)
    requires Reliable(es) && !Finished(es) && !(bidi && Connects(c, Arrived(es)))
    ensures Undecided(c, bidi, Arrived(es), Run(c, true, bidi, es))
    ensures Run(c, true, bidi, es).relay.None? && !Run(c, true, bidi, es).routed
  {
    EarlyIsPrefix(es);
    ProgressAlways(c, bidi, es);
    if es != [] {
      var front, last := es[..|es| - 1], es[|es| - 1];
      FinishedSnoc(es);
      EarlyIsPrefix(front);
      ProgressAlways(c, bidi, front);
      NotYetConnects(c, Arrived(front), if last.Data? then last.data else []);
      assert last.Read? ==> Arrived(front) == Arrived(es);
      UndecidedAlways(c, bidi, front);
      if last.Data? {
        UndecidedStep(c, bidi, Arrived(front), Run(c, true, bidi, front), last.data);
      }
      hide StepData;
    }
  }

  lemma NotYetConnects(c: Codec, all: bytes, data: bytes)
    ensures Connects(c, all) ==> Connects(c, all + data)
  {
    if HeaderArrived(all) {
      SplitHeadExtends(c, all, data);
    }
  }

  lemma UndecidedStep(c: Codec, bidi: bool, all: bytes, v: StreamView, data: bytes)
    requires Undecided(c, bidi, all, v) && Gathering(c, all, v) && !(bidi && Connects(c, all + data))
    ensures Undecided(c, bidi, all + data, StepData(c, true, bidi, v, data, false))
  {
    var buf := (if v.buffer.Some? then v.buffer.value else []) + data;
    assert buf == all + data;
    if HeaderArrived(all) {
      SplitHeadExtends(c, all, data);
    }
  }

  /** A stream that does not decode is dropped: with its end it is noted as malformed, or an exception leaves the
      handler; nothing is dispatched or opened because of it, and nothing kept. */
  lemma MalformedStreamIsDropped(c: Codec, bidi: bool, es: seq<StreamEvent>, data: bytes)
    requires Reliable(es) && !Finished(es) && !(bidi && Connects(c, Arrived(es)))
    requires !Decode(c, Arrived(es) + data).Ok?
    ensures var v := Run(c, true, bidi, es + [Data(data, true)]);
            && v.actions != [] && OnlyRaised(v.actions[..|v.actions| - 1])
            && v.actions[|v.actions| - 1] == (if Decode(c, Arrived(es) + data).ValueError? then Malformed else Raised)
            && v.relay.None? && !v.routed && v.buffer.None? && !v.framed
  {
    UndecidedAlways(c, bidi, es);
    EarlyIsPrefix(es);
    ProgressAlways(c, bidi, es);
    RunSnoc(c, true, bidi, es, Data(data, true));
    var v := Run(c, true, bidi, es);
    assert (if v.buffer.Some? then v.buffer.value else []) + data == Arrived(es) + data;
  }

  /** A header that can be read but not understood raises in every event that adds to its stream. */
  lemma BadHeaderRaises(c: Codec, handler: bool, v: StreamView, data: bytes)
    requires !v.routed && !v.framed
    requires SplitHead(c, (if v.buffer.Some? then v.buffer.value else []) + data).Bad?
    ensures var buf := (if v.buffer.Some? then v.buffer.value else []) + data;
            StepData(c, handler, true, v, data, false) ==
              v.(buffer := Some(buf), actions := v.actions + [Raised])
  {}

  // ------------------------------------------------------------------------------ nobody to connect

  /** What becomes of a CONNECT stream for which there is nobody: 501 and the end of stream behind it, where an
      answer can be sent and written. */
  predicate CanRefuse(c: Codec, bidi: bool) { bidi && Wire(c, REFUSAL, false).Some? }

  function Unserved(c: Codec, bidi: bool, s: StreamVal): StreamVal {
    if CanRefuse(c, bidi) then s.(sent := Wire(c, REFUSAL, false).value, fin := true) else s
  }

  function Instead(c: Codec, bidi: bool, actions: seq<Action>): seq<Action> {
    if actions == [] then []
    else
      var front, last := Instead(c, bidi, actions[..|actions| - 1]), actions[|actions| - 1];
      front + [if !last.Open? then last else if CanRefuse(c, bidi) then Refuse(last.frame) else Raised]
  }

  ghost function WithoutHandler(c: Codec, bidi: bool, v: StreamView): StreamView {
    v.(relay := if v.relay.Some? then Some(Unserved(c, bidi, v.relay.value)) else None,
       actions := Instead(c, bidi, v.actions))
  }

  lemma InsteadSnoc(c: Codec, bidi: bool, actions: seq<Action>, a: Action)
    ensures Instead(c, bidi, actions + [a]) ==
            Instead(c, bidi, actions) + [if !a.Open? then a else if CanRefuse(c, bidi) then Refuse(a.frame) else Raised]
  {
    assert (actions + [a])[..|actions|] == actions;
    hide Wire;
  }

  lemma WithoutHandlerOpens(c: Codec, bidi: bool, v: StreamView, f: Frame, rest: bytes, end: bool)
    ensures OpenPassThrough(c, false, bidi, WithoutHandler(c, bidi, v), f, rest, end) ==
            WithoutHandler(c, bidi, OpenPassThrough(c, true, bidi, v, f, rest, end))
  {
    InsteadSnoc(c, bidi, v.actions, Open(f));
    hide Wire, Instead;
    if Wire(c, REFUSAL, false).Some? {
      assert [] + Wire(c, REFUSAL, false).value == Wire(c, REFUSAL, false).value;
    }
  }

  lemma FeedsAlike(c: Codec, bidi: bool, s: StreamVal, data: bytes, end: bool)
    ensures Feed(Unserved(c, bidi, s), data, end) == Unserved(c, bidi, Feed(s, data, end))
    ensures Fail(Unserved(c, bidi, s)) == Unserved(c, bidi, Fail(s))
    ensures Readable(Unserved(c, bidi, s)) <==> Readable(s)
    ensures Readable(s) ==> AfterRead(Unserved(c, bidi, s)) == Unserved(c, bidi, AfterRead(s))
  {
    hide Wire;
  }

  lemma WithoutHandlerWhole(c: Codec, bidi: bool, v: StreamView, buf: bytes)
    ensures TakeWhole(c, false, bidi, WithoutHandler(c, bidi, v), buf) ==
            WithoutHandler(c, bidi, TakeWhole(c, true, bidi, v, buf))
  {
    var d := Decode(c, buf);
    hide Decode, OpenPassThrough, Instead, Unserved;
    InsteadSnoc(c, bidi, v.actions, Raised);
    InsteadSnoc(c, bidi, v.actions, Malformed);
    if d.Ok? {
      InsteadSnoc(c, bidi, v.actions, Dispatch(d.value));
      WithoutHandlerOpens(c, bidi, v, d.value, [], true);
    }
  }

  lemma WithoutHandlerPart(c: Codec, bidi: bool, v: StreamView, buf: bytes)
    ensures TakePart(c, false, bidi, WithoutHandler(c, bidi, v), buf) ==
            WithoutHandler(c, bidi, TakePart(c, true, bidi, v, buf))
  {
    var h := SplitHead(c, buf);
    hide SplitHead, OpenPassThrough, Instead, Unserved;
    InsteadSnoc(c, bidi, v.actions, Raised);
    if h.Complete? {
      WithoutHandlerOpens(c, bidi, v.(buffer := None), h.frame, h.rest, false);
    }
  }

  lemma WithoutHandlerStep(c: Codec, bidi: bool, v: StreamView, e: StreamEvent)
    ensures Step(c, false, bidi, WithoutHandler(c, bidi, v), e) == WithoutHandler(c, bidi, Step(c, true, bidi, v, e))
  {
    hide TakeWhole, TakePart, Feed, Fail, Readable, AfterRead, Instead, Unserved;
    if v.relay.Some? {
      FeedsAlike(c, bidi, v.relay.value, if e.Data? then e.data else [], if e.Data? then e.end else true);
    }
    if e.Data? {
      var buf := (if v.buffer.Some? then v.buffer.value else []) + e.data;
      WithoutHandlerWhole(c, bidi, v.(buffer := None, framed := false), buf);
      WithoutHandlerPart(c, bidi, v.(buffer := Some(buf)), buf);
    }
  }

  /** Over every run: a server that serves no CONNECT does the same with every stream, except that it answers 501 and
      ends the stream where it would have opened one, or raises where it cannot answer. */
  lemma {:induction false} WithoutHandlerRefuses(c: Codec, bidi: bool, es: seq<StreamEvent>)
    ensures Run(c, false, bidi, es) == WithoutHandler(c, bidi, Run(c, true, bidi, es))
  {
    if es != [] {
      WithoutHandlerRefuses(c, bidi, es[..|es| - 1]);
      WithoutHandlerStep(c, bidi, Run(c, true, bidi, es[..|es| - 1]), es[|es| - 1]);
      hide Step, WithoutHandler;
    }
  }

  // -------------------------------------------------------------- all streams of one connection

  datatype Event = OnData(id: nat, data: bytes, end: bool) | OnReset(id: nat) | OnTerminated | OnRead(id: nat)

  /** The events one stream sees. */
  function Project(es: seq<Event>, id: nat): seq<StreamEvent> {
    if es == [] then []
    else Project(es[..|es| - 1], id) + Seen(es[|es| - 1], id)
  }

  function Seen(e: Event, id: nat): seq<StreamEvent> {
    match e
    case OnData(i, data, end) => if i == id then [Data(data, end)] else []
    case OnReset(i) => if i == id then [Reset] else []
    case OnTerminated => [Terminated]
    case OnRead(i) => if i == id then [Read] else []
  }

  function ActionsOf(log: seq<(nat, Action)>, id: nat): seq<Action> {
    if log == [] then []
    else ActionsOf(log[..|log| - 1], id) + if log[|log| - 1].0 == id then [log[|log| - 1].1] else []
  }

  class ServerProtocol {
    const codec: Codec
    const handler: bool                     // whether anyone serves CONNECT
    var buffers: map<nat, bytes>            // the assembler
    var streams: map<nat, QuicStream>       // the relay table
    var framed: set<nat>
    var relays: map<nat, QuicStream>        // the stream each connect task was handed
    var log: seq<(nat, Action)>             // what was started or dropped, in order

    ghost predicate Valid()
      reads this
    {
      && streams.Keys <= relays.Keys
      && (forall i <- streams :: streams[i] == relays[i])
      && (forall i, j :: i in relays && j in relays && i != j ==> relays[i] != relays[j])
    }

    ghost function View(id: nat): StreamView
      reads this, relays.Values
    {
      StreamView(
        if id in buffers then Some(buffers[id]) else None,
        id in framed,
        id in streams,
        if id in relays then Some(relays[id].Value()) else None,
        ActionsOf(log, id))
    }

    constructor (codec: Codec, handler: bool)
      ensures Valid() && this.codec == codec && this.handler == handler
      ensures forall id :: View(id) == UNSEEN
      ensures fresh(relays.Values)
    {
      this.codec, this.handler := codec, handler;
      buffers, streams, framed, relays, log := map[], map[], {}, map[], [];
    }

    /** StreamDataReceived: only the event's own stream changes, and it changes as Step says. */
    method DataReceived(id: nat, data: bytes, end: bool)
      requires Valid()
      modifies this, relays.Values
      ensures Valid() && fresh(relays.Values - old(relays.Values))
      ensures View(id) == StepData(codec, handler, IsBidirectional(id), old(View(id)), data, end)
      ensures forall i :: i != id ==> View(i) == old(View(i))
    {
      if id in streams {
        RouteChunk(id, data, end);
      } else {
        Assemble(id, data, end);
      }
    }

    method Assemble(id: nat, data: bytes, end: bool)
      requires Valid() && id !in streams
      modifies this
      ensures Valid() && fresh(relays.Values - old(relays.Values))
      ensures View(id) == StepData(codec, handler, IsBidirectional(id), old(View(id)), data, end)
      ensures forall i :: i != id ==> View(i) == old(View(i))
    {
      hide TakeWhole, TakePart, Feed, ActionsOf;
      var buf := (if id in buffers then buffers[id] else []) + data;
      if end {
        buffers := buffers - {id};
        framed := framed - {id};
        WholeFrame(id, buf);
      } else {
        buffers := buffers[id := buf];
        MaybePassThrough(id);
      }
    }

    method RouteChunk(id: nat, data: bytes, end: bool)
      requires Valid() && id in streams
      modifies this`streams, relays.Values
      ensures Valid()
      ensures View(id) == old(View(id)).(routed := !end, relay := Some(Feed(old(View(id)).relay.value, data, end)))
      ensures forall i :: i != id ==> View(i) == old(View(i))
    {
      var stream := streams[id];
      if end { // nothing more will arrive on it
        streams := streams - {id};
      }
      stream.FeedChunk(data, end);
    }

    method WholeFrame(id: nat, payload: bytes)
      requires Valid() && id !in streams
      modifies this
      ensures Valid() && fresh(relays.Values - old(relays.Values))
      ensures View(id) == TakeWhole(codec, handler, IsBidirectional(id), old(View(id)), payload)
      ensures forall i :: i != id ==> View(i) == old(View(i))
    {
      hide Decode, OpenPassThrough, Feed, ActionsOf, IsBidirectional;
      match Decode(codec, payload) {
        case ValueError => Note(id, Malformed);
        case OtherError => Note(id, Raised);
        case Ok(f) =>
          if f.kind.Connect? {
            OpenRelay(id, f, [], true);
          } else {
            Note(id, Dispatch(f));
          }
      }
    }

    method Note(id: nat, a: Action)
      modifies this`log
      ensures log == old(log) + [(id, a)]
      ensures forall i :: ActionsOf(log, i) == old(ActionsOf(log, i)) + if i == id then [a] else []
    {
      log := log + [(id, a)];
      assert log[..|log| - 1] == old(log);
    }

    method MaybePassThrough(id: nat)
      requires Valid() && id in buffers && id !in streams
      modifies this
      ensures Valid() && fresh(relays.Values - old(relays.Values))
      ensures View(id) == TakePart(codec, handler, IsBidirectional(id), old(View(id)), old(buffers[id]))
      ensures forall i :: i != id ==> View(i) == old(View(i))
    {
      hide SplitHead, OpenPassThrough, Feed, ActionsOf, IsBidirectional;
      if id in framed || !IsBidirectional(id) {
        return;
      }
      match SplitHead(codec, buffers[id]) {
        case Incomplete =>
        case Bad(_) => Note(id, Raised);
        case Complete(f, rest) =>
          if f.kind.Connect? {
            buffers := buffers - {id};
            OpenRelay(id, f, rest, false);
          } else {
            framed := framed + {id};
          }
      }
    }

    method OpenRelay(id: nat, f: Frame, rest: bytes, end: bool)
      requires Valid() && id !in streams
      modifies this
      ensures Valid() && fresh(relays.Values - old(relays.Values))
      ensures View(id) == OpenPassThrough(codec, handler, IsBidirectional(id), old(View(id)), f, rest, end)
      ensures forall i :: i != id ==> View(i) == old(View(i))
    {
      var stream := NewRelay(rest, end);
      hide Feed, Wire, ActionsOf, IsBidirectional;
      if handler {
        Register(id, stream, end, Open(f));
        return;
      }
      var w := if IsBidirectional(id) then Wire(codec, REFUSAL, false) else None;
      if w.None? {
        Register(id, stream, end, Raised);
      } else {
        Answer(stream, w.value);
        Register(id, stream, end, Refuse(f));
      }
    }

    method NewRelay(rest: bytes, end: bool) returns (stream: QuicStream)
      ensures fresh(stream) && stream.Value() == Feed(FRESH, rest, end) && !stream.closed && !stream.fin
    {
      stream := new QuicStream();
      stream.FeedChunk(rest, end);
    }

    /** The 501 answer and the end of stream behind it. */
    method Answer(stream: QuicStream, w: bytes)
      requires !stream.closed && !stream.fin
      modifies stream
      ensures stream.Value() == old(stream.Value()).(sent := old(stream.Value()).sent + w, fin := true)
    {
      var ok := stream.SendData(w, false);
      ok := stream.SendData([], true);
    }

    method Register(id: nat, stream: QuicStream, end: bool, a: Action)
      requires Valid() && id !in streams && stream !in relays.Values
      modifies this`streams, this`relays, this`log
      ensures Valid() && relays == old(relays)[id := stream]
      ensures View(id) == old(View(id)).(routed := !end, relay := Some(stream.Value()),
                                         actions := old(View(id)).actions + [a])
      ensures forall i :: i != id ==> View(i) == old(View(i))
    {
      if !end {
        streams := streams[id := stream];
      }
      relays := relays[id := stream];
      Note(id, a);
    }

    method StreamReset(id: nat)
      requires Valid()
      modifies this, relays.Values
      ensures Valid() && relays == old(relays)
      ensures View(id) == Step(codec, handler, IsBidirectional(id), old(View(id)), Reset)
      ensures forall i :: i != id ==> View(i) == old(View(i))
    {
      if id in streams {
        var stream := streams[id];
        streams := streams - {id};
        stream.FailReads();
      }
    }

    /** ConnectionTerminated: every relayed stream fails, nothing else changes. */
    method ConnectionTerminated()
      requires Valid()
      modifies this, relays.Values
      ensures Valid() && relays == old(relays)
      ensures forall i :: View(i) == Step(codec, handler, IsBidirectional(i), old(View(i)), Terminated)
    {
      FailAll();
      streams := map[];
    }

    method FailAll()
      requires Valid()
      modifies relays.Values
      ensures forall i <- relays ::
        relays[i].Value() == (if i in streams then Fail(old(relays[i].Value())) else old(relays[i].Value()))
    {
      var left := streams.Keys;
      while left != {}
        invariant left <= streams.Keys
        invariant forall i <- relays ::
          relays[i].Value() == (if i in streams && i !in left then Fail(old(relays[i].Value()))
                                else old(relays[i].Value()))
      {
        var id :| id in left;
        streams[id].FailReads();
        left := left - {id};
      }
    }

    /** The connect task's read() on its own stream. */
    method ReadStream(id: nat) returns (r: Option<bytes>)
      requires Valid()
      modifies relays.Values
      ensures Valid() && unchanged(this)
      ensures r.Some? ==>
          id in relays && Readable(old(relays[id].Value())) && r.value == ReadResult(old(relays[id].Value()))
      ensures forall i ::
        View(i) == (if i == id then Step(codec, handler, IsBidirectional(i), old(View(i)), Read) else old(View(i)))
    {
      if id !in relays {
        return None;
      }
      r := relays[id].Read();
    }

    method Handle(e: Event)
      requires Valid()
      modifies this, relays.Values
      ensures Valid() && fresh(relays.Values - old(relays.Values))
      ensures forall i :: View(i) == ApplySeen(codec, handler, i, old(View(i)), Seen(e, i))
    {
      match e
      case OnData(id, data, end) => DataReceived(id, data, end);
      case OnReset(id) => StreamReset(id);
      case OnTerminated => ConnectionTerminated();
      case OnRead(id) => var r := ReadStream(id);
    }

    /** Streams do not disturb each other: after any interleaving of many streams' events, each stream
        stands where its own events alone would have taken it. */
    method HandleAll(es: seq<Event>)
      requires Valid() && log == [] && relays == map[] && buffers == map[] && framed == {}
      modifies this, relays.Values
      ensures forall i :: View(i) == Run(codec, handler, IsBidirectional(i), Project(es, i))
    {
      ghost var before := relays.Values;
      for k := 0 to |es|
        invariant Valid() && fresh(relays.Values - before)
        invariant forall i :: View(i) == Run(codec, handler, IsBidirectional(i), Project(es[..k], i))
      {
        label L:
        Handle(es[k]);
        forall i ensures View(i) == Run(codec, handler, IsBidirectional(i), Project(es[..k + 1], i)) {
          RunProjectSnoc(codec, handler, es, k, i);
        }
      }
      assert es[..|es|] == es;
    }
  }

  function ApplySeen(c: Codec, handler: bool, id: nat, v: StreamView, seen: seq<StreamEvent>): StreamView
    requires |seen| <= 1
  {
    if seen == [] then v else Step(c, handler, IsBidirectional(id), v, seen[0])
  }

  lemma RunProjectSnoc(c: Codec, handler: bool, es: seq<Event>, k: nat, id: nat)
    requires k < |es|
    ensures Run(c, handler, IsBidirectional(id), Project(es[..k + 1], id)) ==
            ApplySeen(c, handler, id, Run(c, handler, IsBidirectional(id), Project(es[..k], id)), Seen(es[k], id))
  {
    assert es[..k + 1][..k] == es[..k];
    var p, seen := Project(es[..k], id), Seen(es[k], id);
    assert Project(es[..k + 1], id) == p + seen;
    if seen == [] {
      assert p + [] == p;
    } else {
      assert seen == [seen[0]];
      RunSnoc(c, handler, IsBidirectional(id), p, seen[0]);
    }
  }
}
