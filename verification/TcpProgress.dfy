/** Over TCP nothing that has arrived is left unread: every reply that is there is given to whoever waits for
    it, and every push is handed over. */
module TcpProgress {
  import opened Prelude
  import opened Protocol
  import opened TcpFraming
  import opened TcpCorrelation
  import opened TcpGuarantees
  import opened Waiters

  // ---------------------------------------------------------------------------------- nothing unread

  /** A connection that is being read holds no complete message. */
  ghost predicate AllRead(conns: seq<Conn>) {
    forall k :: 0 <= k < |conns| && conns[k].reading ==> !Arrived(conns[k].buffer)
  }

  ghost predicate OthersRead(conns: seq<Conn>, but: nat) {
    forall k :: 0 <= k < |conns| && k != but && conns[k].reading ==> !Arrived(conns[k].buffer)
  }

  lemma MessageTouchesOne(c: Codec, n: Net, k: nat)
    requires k < |n.conns| && Arrived(n.conns[k].buffer)
    ensures var r := AfterMessage(c, n, k);
            |r.conns| == |n.conns| && forall j :: 0 <= j < |n.conns| && j != k ==> r.conns[j] == n.conns[j]
  {
    hide Decode, FirstMessage, PayloadEnd, Arrived;
  }

  lemma {:induction false} DrainReadsAll(c: Codec, n: Net, k: nat)
    requires k < |n.conns| && OthersRead(n.conns, k)
    ensures AllRead(Drain(c, n, k).conns)
    decreases |n.conns[k].buffer|
  {
    if n.conns[k].reading && Arrived(n.conns[k].buffer) {
      MessageShrinks(c, n, k);
      MessageTouchesOne(c, n, k);
      DrainReadsAll(c, AfterMessage(c, n, k), k);
      hide AfterMessage, Arrived;
    }
  }

  lemma {:induction false} RunReadsAll(c: Codec, events: seq<Event>)
    ensures AllRead(Run(c, events).conns)
  {
    if events != [] {
      var n, e := Run(c, events[..|events| - 1]), events[|events| - 1];
      RunReadsAll(c, events[..|events| - 1]);
      if e.Chunk? {
        if e.conn < |n.conns| && n.conns[e.conn].reading {
          DrainReadsAll(c, Buffered(n, e.conn, e.data), e.conn);
        }
      } else {
        RunLinked(c, events[..|events| - 1]);
        QuietSteps(c, n, e);
        NothingHalfRead(n, After(c, n, e));
        hide Linked;
      }
      hide Drain, ReadsNothing, After, Arrived;
      ChunkIs(c, n, e);
    }
  }

  lemma ChunkIs(c: Codec, n: Net, e: Event)
    ensures e.Chunk? ==>
              After(c, n, e) == (if e.conn < |n.conns| && n.conns[e.conn].reading
                                 then Drain(c, Buffered(n, e.conn, e.data), e.conn) else n)
  {
    hide Drain;
  }

  lemma NothingHalfRead(n: Net, r: Net)
    requires AllRead(n.conns) && ReadsNothing(n, r)
    ensures AllRead(r.conns)
  {
    assert !Arrived([]);
  }

  /** After every event the messages read of a connection that is being read are all that its bytes hold, and
      the rest of the bytes are those of a message still incomplete. */
  lemma {:induction false} NothingLeftUnread(c: Codec, events: seq<Event>, k: nat)
    requires k < |Run(c, events).conns| && Run(c, events).conns[k].reading
    ensures var x := Run(c, events).conns[k]; ReadAll(x.input) == (x.seen, x.buffer)
  {
    RunReadsAll(c, events);
    RunReplied(c, events);
    var x := Run(c, events).conns[k];
    assert Faithful(x);
    assert ReadAll(x.buffer) == ([], x.buffer);
    assert x.seen + [] == x.seen;
    hide Run, Arrived;
  }

  // ------------------------------------------------------------------------------ every reply given

  /** Whoever failed, failed with the connection. */
  ghost predicate FailedWithConn(n: Net) {
    forall i :: 0 <= i < |n.waiters| && n.waiters[i].fate.Failed? ==>
      n.waiters[i].key.conn < |n.conns| && n.conns[n.waiters[i].key.conn].closed
  }

  lemma FailClosed(n: Net, k: nat)
    requires Linked(n) && FailedWithConn(n)
    ensures FailedWithConn(Fail(n, k)) && FailedWithConn(Fail(StopReading(n, k), k))
  {
    if k < |n.conns| {
      forall i | 0 <= i < |n.waiters| && i in n.conns[k].pending.Values ensures n.waiters[i].key.conn == k {
        var id :| id in n.conns[k].pending && n.conns[k].pending[id] == i;
      }
    }
  }

  lemma MessageClosed(c: Codec, n: Net, k: nat)
    requires Linked(n) && FailedWithConn(n) && k < |n.conns| && Arrived(n.conns[k].buffer)
    ensures FailedWithConn(AfterMessage(c, n, k))
  {
    var taken := Taken(n, k);
    BytesKeepLinks(n, k, taken.conns[k]);
    FailClosed(taken, k);
    hide Decode, FirstMessage, PayloadEnd, Arrived, Linked;
  }

  lemma {:induction false} DrainClosed(c: Codec, n: Net, k: nat)
    requires Linked(n) && FailedWithConn(n) && k < |n.conns|
    ensures FailedWithConn(Drain(c, n, k))
    decreases |n.conns[k].buffer|
  {
    if n.conns[k].reading && Arrived(n.conns[k].buffer) {
      MessageShrinks(c, n, k);
      MessageLinked(c, n, k);
      MessageClosed(c, n, k);
      DrainClosed(c, AfterMessage(c, n, k), k);
      hide AfterMessage, Arrived, Linked, FailedWithConn;
    }
  }

  lemma QuietClosed(c: Codec, n: Net, e: Event)
    requires Linked(n) && FailedWithConn(n) && !e.Chunk?
    ensures FailedWithConn(After(c, n, e))
  {
    match e {
      case Lost(k) => FailClosed(n, k);
      case Migrate =>
        if n.current.Some? {
          FailClosed(n, n.current.value);
        }
      case Close =>
        if n.current.Some? {
          FailClosed(n, n.current.value);
        }
      case _ =>
    }
    hide Linked, Fail, StopReading;
  }

  lemma {:induction false} RunClosed(c: Codec, events: seq<Event>)
    ensures FailedWithConn(Run(c, events))
  {
    if events != [] {
      var n, e := Run(c, events[..|events| - 1]), events[|events| - 1];
      RunClosed(c, events[..|events| - 1]);
      RunLinked(c, events[..|events| - 1]);
      hide Linked;
      if e.Chunk? {
        if e.conn < |n.conns| && n.conns[e.conn].reading {
          BytesKeepLinks(n, e.conn, Buffered(n, e.conn, e.data).conns[e.conn]);
          DrainClosed(c, Buffered(n, e.conn, e.data), e.conn);
        }
      } else {
        QuietClosed(c, n, e);
      }
      hide Drain, After;
      ChunkIs(c, n, e);
    }
  }

  ghost predicate Contains(ms: seq<Message>, id: nat, since: nat) {
    exists at :: since <= at < |ms| && ms[at].id == id
  }

  /** End to end and both ways: once all the bytes of the packed messages ms have arrived on an open connection,
      in whatever pieces, and nothing on it failed to decode, exactly these messages have been read; and a
      request on it that was not given up has its reply if and only if a message with its id is among those
      that came after it. */
  lemma {:induction false} EveryReplyIsGiven(c: Codec, events: seq<Event>, i: nat, ms: seq<Message>)
    requires (forall m <- ms :: Packable(m)) && i < |Run(c, events).waiters|
    requires Run(c, events).waiters[i].key.conn < |Run(c, events).conns|
    requires var x := Run(c, events).conns[Run(c, events).waiters[i].key.conn];
             x.reading && !x.closed && x.input == PackAll(ms)
    ensures var n := Run(c, events);
            var w := n.waiters[i];
            && n.conns[w.key.conn].seen == ms
            && (!w.fate.Abandoned? ==> (w.fate.Got? <==> Contains(ms, w.key.id, w.key.since)))
            && (!w.fate.Got? && !w.fate.Abandoned? ==> w.fate.Waiting?)
  {
    var n := Run(c, events);
    var w := n.waiters[i];
    NothingLeftUnread(c, events, w.key.conn);
    assert PackAll(ms) + [] == PackAll(ms);
    assert ReadAll([]) == ([], []);
    ReadPacked(ms, []);
    assert ms + [] == ms;
    ReplyIsOwn(c, events, i);
    RunClosed(c, events);
    hide Run, ReadAll, PackAll, Packable, Decode;
    if w.fate.Got? {
      assert ms[w.fate.reply.at].id == w.key.id;
    }
  }

  // --------------------------------------------------------------------------------- pushes handed over

  /** The pushes among the messages of a connection: where they are, and what they decode to. */
  function OneWays(c: Codec, seen: seq<Message>): seq<(nat, Frame)> {
    if seen == [] then []
    else
      var n, m := |seen| - 1, seen[|seen| - 1];
      OneWays(c, seen[..n]) +
        if m.id == ONEWAY && Decode(c, m.payload).Ok? then [(n, Decode(c, m.payload).value)] else []
  }

  /** What was handed over of connection k. */
  function HandedOver(pushes: seq<OneWay>, k: nat): seq<(nat, Frame)> {
    if pushes == [] then []
    else
      var last := pushes[|pushes| - 1];
      HandedOver(pushes[..|pushes| - 1], k) + if last.conn == k then [(last.at, last.frame)] else []
  }

  ghost predicate AllHandedOver(c: Codec, n: Net) {
    && (forall p <- n.pushes :: p.conn < |n.conns|)
    && forall k :: 0 <= k < |n.conns| ==> HandedOver(n.pushes, k) == OneWays(c, n.conns[k].seen)
  }

  lemma OneWaysSnoc(c: Codec, seen: seq<Message>, m: Message)
    ensures OneWays(c, seen + [m]) == OneWays(c, seen) +
      if m.id == ONEWAY && Decode(c, m.payload).Ok? then [(|seen|, Decode(c, m.payload).value)] else []
  {
    assert (seen + [m])[..|seen|] == seen;
    hide Decode;
  }

  lemma HandedOverSnoc(pushes: seq<OneWay>, p: OneWay, k: nat)
    ensures HandedOver(pushes + [p], k) == HandedOver(pushes, k) + if p.conn == k then [(p.at, p.frame)] else []
  {
    assert (pushes + [p])[..|pushes|] == pushes;
  }

  lemma {:induction false} NothingHandedOver(pushes: seq<OneWay>, k: nat)
    requires forall p <- pushes :: p.conn != k
    ensures HandedOver(pushes, k) == []
  {
    if pushes != [] {
      NothingHandedOver(pushes[..|pushes| - 1], k);
    }
  }

  lemma MessageHandsOver(c: Codec, n: Net, k: nat)
    requires Linked(n) && AllHandedOver(c, n) && k < |n.conns| && Arrived(n.conns[k].buffer)
    ensures AllHandedOver(c, AfterMessage(c, n, k))
  {
    hide Decode, FirstMessage, PayloadEnd, Arrived, AfterMessage, Linked, OneWays, HandedOver;
    var m, r := FirstMessage(n.conns[k].buffer), AfterMessage(c, n, k);
    OneWaysSnoc(c, n.conns[k].seen, m);
    SeenNext(c, n, k);
    var isPush := m.id == ONEWAY && Decode(c, m.payload).Ok?;
    forall j | 0 <= j < |n.conns| ensures HandedOver(r.pushes, j) == OneWays(c, r.conns[j].seen) {
      if isPush {
        HandedOverSnoc(n.pushes, OneWay(k, |n.conns[k].seen|, Decode(c, m.payload).value), j);
      }
    }
    if isPush {
      assert forall p <- r.pushes :: p in n.pushes || p.conn == k;
    }
  }

  lemma SeenNext(c: Codec, n: Net, k: nat)
    requires Linked(n) && k < |n.conns| && Arrived(n.conns[k].buffer)
    ensures var m, r := FirstMessage(n.conns[k].buffer), AfterMessage(c, n, k);
            && |r.conns| == |n.conns| && r.conns[k].seen == n.conns[k].seen + [m]
            && (forall j :: 0 <= j < |n.conns| && j != k ==> r.conns[j].seen == n.conns[j].seen)
            && r.pushes == n.pushes + (if m.id == ONEWAY && Decode(c, m.payload).Ok?
                                       then [OneWay(k, |n.conns[k].seen|, Decode(c, m.payload).value)] else [])
            && (r.pushes == n.pushes <==> !(m.id == ONEWAY && Decode(c, m.payload).Ok?))
  {
    hide Decode, FirstMessage, PayloadEnd, Arrived;
    assert ONEWAY !in n.conns[k].pending;
    assert n.pushes + [] == n.pushes;
  }

  lemma {:induction false} DrainHandsOver(c: Codec, n: Net, k: nat)
    requires Linked(n) && AllHandedOver(c, n) && k < |n.conns|
    ensures AllHandedOver(c, Drain(c, n, k))
    decreases |n.conns[k].buffer|
  {
    if n.conns[k].reading && Arrived(n.conns[k].buffer) {
      MessageShrinks(c, n, k);
      MessageLinked(c, n, k);
      MessageHandsOver(c, n, k);
      DrainHandsOver(c, AfterMessage(c, n, k), k);
      hide AfterMessage, Arrived, Linked, AllHandedOver;
    }
  }

  lemma QuietHandsOver(c: Codec, n: Net, e: Event)
    requires Linked(n) && AllHandedOver(c, n) && !e.Chunk?
    ensures AllHandedOver(c, After(c, n, e))
  {
    QuietSteps(c, n, e);
    var r := After(c, n, e);
    assert r.pushes == n.pushes by {
      hide Linked;
    }
    hide After, Linked, OneWays, HandedOver;
    forall k | 0 <= k < |r.conns| ensures HandedOver(r.pushes, k) == OneWays(c, r.conns[k].seen) {
      if k >= |n.conns| {
        NothingHandedOver(n.pushes, k);
        NoOneWays(c);
      }
    }
  }

  lemma NoOneWays(c: Codec)
    ensures OneWays(c, []) == []
  {}

  /** Over every run and for each connection by itself: the pushes handed over are exactly its messages with
      id 0 that decode, each once and in the order they came. */
  lemma {:induction false} EveryPushIsHandedOver(c: Codec, events: seq<Event>)
    ensures AllHandedOver(c, Run(c, events))
  {
    if events != [] {
      var n, e := Run(c, events[..|events| - 1]), events[|events| - 1];
      EveryPushIsHandedOver(c, events[..|events| - 1]);
      RunLinked(c, events[..|events| - 1]);
      hide Linked, AllHandedOver;
      if e.Chunk? {
        if e.conn < |n.conns| && n.conns[e.conn].reading {
          BytesKeepLinks(n, e.conn, Buffered(n, e.conn, e.data).conns[e.conn]);
          SameSeen(c, n, Buffered(n, e.conn, e.data));
          DrainHandsOver(c, Buffered(n, e.conn, e.data), e.conn);
        }
      } else {
        QuietHandsOver(c, n, e);
      }
      hide Drain, After;
      ChunkIs(c, n, e);
    }
  }

  lemma SameSeen(c: Codec, n: Net, r: Net)
    requires AllHandedOver(c, n) && r.pushes == n.pushes && |r.conns| == |n.conns|
    requires forall k :: 0 <= k < |n.conns| ==> r.conns[k].seen == n.conns[k].seen
    ensures AllHandedOver(c, r)
  {
    hide OneWays, HandedOver;
  }

  // -------------------------------------------------------------------- a connection ends for a reason

  ghost predicate AllDecode(c: Codec, seen: seq<Message>) { forall m <- seen :: Decode(c, m.payload).Ok? }

  /** Reading has stopped only if the connection was lost or a message did not decode; a connection that is still
      read was closed only by a migration or by closing the tunnel. */
  ghost predicate Justified(c: Codec, x: Conn, lost: bool, left: bool) {
    && (!AllDecode(c, x.seen) ==> !x.reading)
    && (!x.reading ==> lost || !AllDecode(c, x.seen))
    && (x.closed && x.reading ==> left)
  }

  ghost predicate AllJustified(c: Codec, n: Net, events: seq<Event>) {
    forall k :: 0 <= k < |n.conns| ==>
      Justified(c, n.conns[k], Lost(k) in events, Migrate in events || Close in events)
  }

  lemma MessageJustified(c: Codec, n: Net, k: nat, lost: bool, left: bool)
    requires k < |n.conns| && Arrived(n.conns[k].buffer) && n.conns[k].reading
    requires Justified(c, n.conns[k], lost, left)
    ensures Justified(c, AfterMessage(c, n, k).conns[k], lost, left)
  {
    var m, r := FirstMessage(n.conns[k].buffer), AfterMessage(c, n, k);
    hide Decode, FirstMessage, PayloadEnd, Arrived;
    assert r.conns[k].seen == n.conns[k].seen + [m];
    assert m in r.conns[k].seen;
  }

  lemma {:induction false} DrainJustified(c: Codec, n: Net, k: nat, events: seq<Event>)
    requires k < |n.conns| && AllJustified(c, n, events)
    ensures AllJustified(c, Drain(c, n, k), events)
    decreases |n.conns[k].buffer|
  {
    if n.conns[k].reading && Arrived(n.conns[k].buffer) {
      MessageShrinks(c, n, k);
      MessageTouchesOne(c, n, k);
      MessageJustified(c, n, k, Lost(k) in events, Migrate in events || Close in events);
      hide Justified;
      assert AllJustified(c, AfterMessage(c, n, k), events);
      DrainJustified(c, AfterMessage(c, n, k), k, events);
      hide AfterMessage, Arrived, AllJustified;
    }
  }

  lemma QuietJustified(c: Codec, n: Net, events: seq<Event>, e: Event)
    requires AllJustified(c, n, events) && !e.Chunk?
    ensures AllJustified(c, After(c, n, e), events + [e])
  {
    hide Decode;
    var all := events + [e];
    assert all[|events|] == e && forall x <- events :: x in all;
  }

  /** Over every run a connection ends for a reason: it is read until it is lost or a message of it does not
      decode, and open until then unless the tunnel moved or was closed. */
  lemma {:induction false} EndsForAReason(c: Codec, events: seq<Event>)
    ensures AllJustified(c, Run(c, events), events)
  {
    if events != [] {
      var front, e := events[..|events| - 1], events[|events| - 1];
      var n := Run(c, front);
      EndsForAReason(c, front);
      assert events == front + [e];
      if e.Chunk? {
        assert forall x: Event :: !x.Chunk? ==> (x in events <==> x in front);
        if e.conn < |n.conns| && n.conns[e.conn].reading {
          hide Justified;
          DrainJustified(c, Buffered(n, e.conn, e.data), e.conn, events) by {
            BufferJustified(c, n, e.conn, e.data, events);
          }
        }
      } else {
        QuietJustified(c, n, front, e);
      }
      hide Drain, After, Justified;
      ChunkIs(c, n, e);
    }
  }

  lemma BufferJustified(c: Codec, n: Net, k: nat, data: bytes, events: seq<Event>)
    requires k < |n.conns| && AllJustified(c, n, events)
    ensures AllJustified(c, Buffered(n, k, data), events)
  {
    hide AllDecode;
  }

  // -------------------------------------------------------------------------------------- requests

  /** How many requests were made on connection k. */
  function MadeOn(waiters: seq<Asked>, k: nat): nat {
    if waiters == [] then 0
    else MadeOn(waiters[..|waiters| - 1], k) + if waiters[|waiters| - 1].key.conn == k then 1 else 0
  }

  lemma {:induction false} MadeOnKeys(a: seq<Asked>, b: seq<Asked>, k: nat)
    requires |a| == |b| && forall i :: 0 <= i < |a| ==> a[i].key == b[i].key
    ensures MadeOn(a, k) == MadeOn(b, k)
  {
    if a != [] {
      MadeOnKeys(a[..|a| - 1], b[..|b| - 1], k);
    }
  }

  ghost predicate InSequence(n: Net) {
    && (forall i :: 0 <= i < |n.waiters| ==> n.waiters[i].key.conn < |n.conns|)
    && (forall k :: 0 <= k < |n.conns| ==> n.conns[k].nextId == 1 + MadeOn(n.waiters, k))
  }

  lemma SameNumbers(n: Net, r: Net)
    requires InSequence(n) && |r.conns| == |n.conns| && Later(n.waiters, r.waiters) && |r.waiters| == |n.waiters|
    requires forall k :: 0 <= k < |n.conns| ==> r.conns[k].nextId == n.conns[k].nextId
    ensures InSequence(r)
  {
    forall k | 0 <= k < |r.conns| ensures r.conns[k].nextId == 1 + MadeOn(r.waiters, k) {
      MadeOnKeys(n.waiters, r.waiters, k);
    }
  }

  lemma {:induction false} NobodyYet(waiters: seq<Asked>, k: nat)
    requires forall w <- waiters :: w.key.conn < k
    ensures MadeOn(waiters, k) == 0
  {
    if waiters != [] {
      assert waiters[|waiters| - 1] in waiters;
      NobodyYet(waiters[..|waiters| - 1], k);
    }
  }

  lemma {:induction false} DrainNumbers(c: Codec, n: Net, k: nat)
    requires k < |n.conns|
    ensures var r := Drain(c, n, k);
            && |r.conns| == |n.conns| && |r.waiters| == |n.waiters|
            && forall j :: 0 <= j < |n.conns| ==> r.conns[j].nextId == n.conns[j].nextId
    decreases |n.conns[k].buffer|
  {
    if n.conns[k].reading && Arrived(n.conns[k].buffer) {
      MessageShrinks(c, n, k);
      MessageNumbers(c, n, k);
      DrainNumbers(c, AfterMessage(c, n, k), k);
      hide AfterMessage, Arrived;
    }
  }

  lemma MessageNumbers(c: Codec, n: Net, k: nat)
    requires k < |n.conns| && Arrived(n.conns[k].buffer)
    ensures var r := AfterMessage(c, n, k);
            && |r.conns| == |n.conns| && |r.waiters| == |n.waiters|
            && forall j :: 0 <= j < |n.conns| ==> r.conns[j].nextId == n.conns[j].nextId
  {
    hide Decode, FirstMessage, PayloadEnd, Arrived;
  }

  lemma NumbersStep(c: Codec, n: Net, e: Event)
    requires InSequence(n)
    ensures InSequence(After(c, n, e))
  {
    var r := After(c, n, e);
    StepLater(c, n, e);
    match e {
      case Connected =>
        NobodyYet(n.waiters, |n.conns|);
      case Request =>
        if IsConnected(n) {
          RequestNumbers(n);
        }
      case Chunk(k, data) =>
        if k < |n.conns| && n.conns[k].reading {
          DrainNumbers(c, Buffered(n, k, data), k);
          hide Drain;
          SameNumbers(n, r);
        }
      case _ => SameNumbers(n, r);
    }
    hide Drain, Later, MadeOn;
  }

  lemma RequestNumbers(n: Net)
    requires InSequence(n) && IsConnected(n)
    ensures InSequence(AfterRequest(n))
  {
    var r := AfterRequest(n);
    assert r.waiters[..|n.waiters|] == n.waiters;
  }

  lemma {:induction false} AlwaysInSequence(c: Codec, events: seq<Event>)
    ensures InSequence(Run(c, events))
  {
    if events != [] {
      AlwaysInSequence(c, events[..|events| - 1]);
      NumbersStep(c, Run(c, events[..|events| - 1]), events[|events| - 1]);
      hide After, InSequence;
    }
  }

  /** A request on an open connection waits for its reply under the number of requests made on that connection,
      itself counted, from the messages that come from now on; without one, nothing is registered.  A connection
      just made is the current one and is open. */
  lemma RequestsAreCounted(c: Codec, events: seq<Event>)
    ensures var n, r := Run(c, events), Run(c, events + [Event.Request]);
            if IsConnected(n) then
              var k := n.current.value;
              r.waiters == n.waiters + [Waiter(Place(k, 1 + MadeOn(n.waiters, k), |n.conns[k].seen|), Waiting)]
            else r == n
    ensures var n, r := Run(c, events), Run(c, events + [Connected]);
            r.current == Some(|n.conns|) && IsConnected(r) && |r.conns| == |n.conns| + 1
                && r.conns[|n.conns|].reading
  {
    AlwaysInSequence(c, events);
    assert (events + [Event.Request])[..|events|] == events && (events + [Connected])[..|events|] == events;
    hide Drain;
  }

  // --------------------------------------------------------------------------- what arrived, who waits

  /** The bytes that arrived on connection k while it was read. */
  function ArrivedOn(c: Codec, events: seq<Event>, k: nat): bytes {
    if events == [] then []
    else
      var front, e := events[..|events| - 1], events[|events| - 1];
      var conns := Run(c, front).conns;
      ArrivedOn(c, front, k) + if e.Chunk? && e.conn == k && k < |conns| && conns[k].reading then e.data else []
  }

  lemma {:induction false} DrainKeepsInput(c: Codec, n: Net, k: nat)
    requires k < |n.conns|
    ensures var r := Drain(c, n, k);
            |r.conns| == |n.conns| && forall j :: 0 <= j < |n.conns| ==> r.conns[j].input == n.conns[j].input
    decreases |n.conns[k].buffer|
  {
    if n.conns[k].reading && Arrived(n.conns[k].buffer) {
      MessageShrinks(c, n, k);
      MessageKeepsInput(c, n, k);
      DrainKeepsInput(c, AfterMessage(c, n, k), k);
      hide AfterMessage, Arrived;
    }
  }

  lemma MessageKeepsInput(c: Codec, n: Net, k: nat)
    requires k < |n.conns| && Arrived(n.conns[k].buffer)
    ensures var r := AfterMessage(c, n, k);
            |r.conns| == |n.conns| && forall j :: 0 <= j < |n.conns| ==> r.conns[j].input == n.conns[j].input
  {
    hide Decode, FirstMessage, PayloadEnd, Arrived;
  }

  lemma InputStep(c: Codec, n: Net, e: Event, k: nat)
    requires k < |After(c, n, e).conns| && |n.conns| <= |After(c, n, e).conns|
    ensures After(c, n, e).conns[k].input ==
            (if k < |n.conns| then n.conns[k].input else []) +
            if e.Chunk? && e.conn == k && k < |n.conns| && n.conns[k].reading then e.data else []
  {
    if e.Chunk? && e.conn < |n.conns| && n.conns[e.conn].reading {
      DrainKeepsInput(c, Buffered(n, e.conn, e.data), e.conn);
    }
    hide Drain;
    if k < |n.conns| {
      assert n.conns[k].input + [] == n.conns[k].input;
    }
  }

  lemma ConnsStay(c: Codec, n: Net, e: Event)
    ensures |n.conns| <= |After(c, n, e).conns|
  {
    if e.Chunk? && e.conn < |n.conns| && n.conns[e.conn].reading {
      DrainKeepsInput(c, Buffered(n, e.conn, e.data), e.conn);
    }
    hide Drain;
  }

  /** What a connection has taken in is what arrived on it, all of it and in order. */
  lemma {:induction false} InputIsWhatArrived(c: Codec, events: seq<Event>, k: nat)
    ensures k < |Run(c, events).conns| ==> Run(c, events).conns[k].input == ArrivedOn(c, events, k)
    ensures k >= |Run(c, events).conns| ==> ArrivedOn(c, events, k) == []
  {
    if events != [] {
      var n, e := Run(c, events[..|events| - 1]), events[|events| - 1];
      InputIsWhatArrived(c, events[..|events| - 1], k);
      ConnsStay(c, n, e);
      hide After;
      if k < |Run(c, events).conns| {
        InputStep(c, n, e, k);
      }
    }
  }

  /** An id is kept exactly as long as its connection is open and no message with it has come since the request:
      whether or not somebody still waits for it, and a later message with it is nobody's reply. */
  ghost predicate KeptId(conns: seq<Conn>, w: Asked) {
    && w.key.conn < |conns|
    && (w.key.id in conns[w.key.conn].pending <==>
          && !conns[w.key.conn].closed
          && NoReply(conns[w.key.conn].seen, w.key.id, w.key.since, |conns[w.key.conn].seen|))
  }

  ghost predicate IdsKept(n: Net) { forall i :: 0 <= i < |n.waiters| ==> KeptId(n.conns, n.waiters[i]) }

  lemma MessageKeepsId(c: Codec, n: Net, k: nat, i: nat)
    requires Linked(n) && Replied(c, n) && k < |n.conns| && Arrived(n.conns[k].buffer) && i < |n.waiters|
    requires KeptId(n.conns, n.waiters[i])
    ensures var r := AfterMessage(c, n, k);
            |r.waiters| == |n.waiters| && r.waiters[i].key == n.waiters[i].key && KeptId(r.conns, n.waiters[i])
  {
    hide Decode, FirstMessage, PayloadEnd, Arrived, NoReply, Linked, KeptId, Deliver, Fail, StopReading;
    var m := FirstMessage(n.conns[k].buffer);
    assert Answered(c, n.conns[n.waiters[i].key.conn].seen, n.waiters[i]);
    NoReplySnoc(n.conns[k].seen, m, n.waiters[i].key.id, n.waiters[i].key.since);
    match Decode(c, m.payload) {
      case Ok(f) => DeliverKeepsId(n, k, m, f, i);
      case _ => FailKeepsId(n, k, i);
    }
  }

  lemma DeliverKeepsId(n: Net, k: nat, m: Message, f: Frame, i: nat)
    requires k < |n.conns| && Arrived(n.conns[k].buffer) && m == FirstMessage(n.conns[k].buffer) && i < |n.waiters|
    requires KeptId(n.conns, n.waiters[i]) && n.waiters[i].key.since <= |n.conns[n.waiters[i].key.conn].seen|
    ensures var r := Deliver(Taken(n, k), k, m.id, f);
            |r.waiters| == |n.waiters| && r.waiters[i].key == n.waiters[i].key && KeptId(r.conns, n.waiters[i])
  {
    hide FirstMessage, PayloadEnd, Arrived, NoReply;
    if n.waiters[i].key.conn == k {
      NoReplySnoc(n.conns[k].seen, m, n.waiters[i].key.id, n.waiters[i].key.since);
    }
  }

  lemma FailKeepsId(n: Net, k: nat, i: nat)
    requires k < |n.conns| && Arrived(n.conns[k].buffer) && i < |n.waiters| && KeptId(n.conns, n.waiters[i])
    ensures var r := Fail(StopReading(Taken(n, k), k), k);
            |r.waiters| == |n.waiters| && r.waiters[i].key == n.waiters[i].key && KeptId(r.conns, n.waiters[i])
  {
    hide FirstMessage, PayloadEnd, Arrived, NoReply;
  }

  lemma NoReplySnoc(seen: seq<Message>, m: Message, id: nat, since: nat)
    ensures since <= |seen| ==>
              (NoReply(seen + [m], id, since, |seen| + 1) <==> NoReply(seen, id, since, |seen|) && m.id != id)
  {
    assert (seen + [m])[|seen|] == m;
    assert forall r :: 0 <= r < |seen| ==> (seen + [m])[r] == seen[r];
  }

  lemma {:induction false} DrainKeepsIds(c: Codec, n: Net, k: nat)
    requires Linked(n) && Replied(c, n) && AllFaithful(n) && IdsKept(n) && k < |n.conns|
    ensures IdsKept(Drain(c, n, k))
    decreases |n.conns[k].buffer|
  {
    if n.conns[k].reading && Arrived(n.conns[k].buffer) {
      MessageShrinks(c, n, k);
      MessageLinked(c, n, k);
      MessageReplied(c, n, k);
      MessageFaithful(c, n, k);
      forall i | 0 <= i < |n.waiters|
        ensures var r := AfterMessage(c, n, k);
                |r.waiters| == |n.waiters| && r.waiters[i].key == n.waiters[i].key && KeptId(r.conns, n.waiters[i])
      {
        MessageKeepsId(c, n, k, i);
      }
      SameWaiters(c, n, k);
      hide AfterMessage, Arrived, Linked, Replied, AllFaithful;
      DrainKeepsIds(c, AfterMessage(c, n, k), k);
    }
  }

  lemma MessageReplied(c: Codec, n: Net, k: nat)
    requires Linked(n) && Replied(c, n) && k < |n.conns| && Arrived(n.conns[k].buffer)
    ensures Replied(c, AfterMessage(c, n, k))
  {
    SameWaiters(c, n, k);
    forall i | 0 <= i < |n.waiters|
      ensures var r := AfterMessage(c, n, k);
              r.waiters[i].key.conn < |r.conns| && Answered(c, r.conns[r.waiters[i].key.conn].seen, r.waiters[i])
    {
      MessageAnswers(c, n, k, i);
    }
    hide AfterMessage, Arrived, Answered, Linked;
  }

  lemma QuietKeepsIds(c: Codec, n: Net, e: Event)
    requires Linked(n) && IdsKept(n) && !e.Chunk?
    ensures IdsKept(After(c, n, e))
  {
    var r := After(c, n, e);
    QuietSteps(c, n, e);
    StepLater(c, n, e);
    forall i | 0 <= i < |r.waiters| ensures KeptId(r.conns, r.waiters[i]) {
      QuietKeepsId(c, n, e, i);
    }
  }

  lemma QuietKeepsId(c: Codec, n: Net, e: Event, i: nat)
    requires Linked(n) && IdsKept(n) && !e.Chunk? && i < |After(c, n, e).waiters|
    ensures KeptId(After(c, n, e).conns, After(c, n, e).waiters[i])
  {
    hide Unique, NoReply;
    if i < |n.waiters| {
      assert KeptId(n.conns, n.waiters[i]) && WaitsOn(n.conns, n.waiters[i], i);
    } else {
      NothingSince(n.conns[n.current.value].seen, n.conns[n.current.value].nextId);
    }
    if e.Lost? && e.conn < |n.conns| {
      assert ConnOk(n.conns[e.conn]);
    }
  }

  lemma NothingSince(seen: seq<Message>, id: nat)
    ensures NoReply(seen, id, |seen|, |seen|)
  {}

  lemma {:induction false} IdsAreKeptExactlyWhile(c: Codec, events: seq<Event>)
    ensures IdsKept(Run(c, events))
  {
    if events != [] {
      var n, e := Run(c, events[..|events| - 1]), events[|events| - 1];
      IdsAreKeptExactlyWhile(c, events[..|events| - 1]);
      RunLinked(c, events[..|events| - 1]);
      RunReplied(c, events[..|events| - 1]);
      hide Linked, Replied, AllFaithful, KeptId;
      if e.Chunk? {
        if e.conn < |n.conns| && n.conns[e.conn].reading {
          BufferKeeps(c, n, e.conn, e.data);
          BytesKeepLinks(n, e.conn, Buffered(n, e.conn, e.data).conns[e.conn]);
          BufferKeepsIds(n, e.conn, e.data);
          DrainKeepsIds(c, Buffered(n, e.conn, e.data), e.conn);
        }
      } else {
        QuietKeepsIds(c, n, e);
      }
      hide Drain, After, IdsKept;
      ChunkIs(c, n, e);
    }
  }

  lemma BufferKeepsIds(n: Net, k: nat, data: bytes)
    requires IdsKept(n) && k < |n.conns|
    ensures IdsKept(Buffered(n, k, data))
  {
    hide NoReply;
    assert forall i :: 0 <= i < |n.waiters| ==> KeptId(n.conns, n.waiters[i]);
  }

  /** Giving up takes effect on whoever still waits, and on nobody else. */
  lemma GiveUpExactlyOne(c: Codec, events: seq<Event>, w: nat)
    ensures var n, r := Run(c, events), Run(c, events + [GiveUp(w)]);
            && r.conns == n.conns && r.current == n.current && r.pushes == n.pushes && |r.waiters| == |n.waiters|
            && forall i :: 0 <= i < |n.waiters| ==>
                 r.waiters[i] == if i == w && n.waiters[i].fate.Waiting? then n.waiters[i].(fate := Abandoned)
                                 else n.waiters[i]
  {
    assert (events + [GiveUp(w)])[..|events|] == events;
  }

  /** Closing the tunnel leaves nobody waiting on the current connection, and no connection to ask on. */
  lemma {:induction false} CloseSettlesEverybody(c: Codec, events: seq<Event>, i: nat)
    ensures Run(c, events + [Close]).current.None?
    ensures var n := Run(c, events);
            i < |n.waiters| && n.current == Some(n.waiters[i].key.conn) ==>
              i < |Run(c, events + [Close]).waiters| && !Run(c, events + [Close]).waiters[i].fate.Waiting?
  {
    assert (events + [Close])[..|events|] == events;
    SettlesOnce(c, events, [Close]);
    RunLinked(c, events);
    var n, r := Run(c, events), Run(c, events + [Close]);
    if i < |n.waiters| && n.current == Some(n.waiters[i].key.conn) && r.waiters[i].fate.Waiting? {
      NobodyLeftBehind(c, events + [Close], i);
    }
  }

  /** A connection that is lost is read no more, and leaves nobody waiting. */
  lemma {:induction false} LossSettlesEverybody(c: Codec, events: seq<Event>, k: nat)
    requires k < |Run(c, events).conns|
    ensures var r := Run(c, events + [Lost(k)]);
            && k < |r.conns| && !r.conns[k].reading && r.conns[k].closed && r.conns[k].pending == map[]
            && forall i :: 0 <= i < |r.waiters| && r.waiters[i].key.conn == k ==> !r.waiters[i].fate.Waiting?
  {
    assert (events + [Lost(k)])[..|events|] == events;
    RunLinked(c, events + [Lost(k)]);
    var r := Run(c, events + [Lost(k)]);
    assert !r.conns[k].reading && r.conns[k].closed;
    hide Run;
    forall i | 0 <= i < |r.waiters| && r.waiters[i].key.conn == k ensures !r.waiters[i].fate.Waiting? {
      assert WaitsOn(r.conns, r.waiters[i], i);
    }
  }
}
