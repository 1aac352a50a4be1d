/** Replies are matched exactly once, over every run of connections, requests, arriving bytes, losses,
    time-outs and migrations. */
module TcpGuarantees {
  import opened Prelude
  import opened Protocol
  import opened TcpFraming
  import opened TcpCorrelation
  import opened Waiters

  // ------------------------------------------------------------------------- a request settles once

  lemma MessageLater(c: Codec, n: Net, k: nat)
    requires k < |n.conns| && Arrived(n.conns[k].buffer)
    ensures Later(n.waiters, AfterMessage(c, n, k).waiters)
  {
    hide Decode, Arrived, FirstMessage, PayloadEnd;
  }

  lemma {:induction false} DrainLater(c: Codec, n: Net, k: nat)
    requires k < |n.conns|
    ensures Later(n.waiters, Drain(c, n, k).waiters)
    decreases |n.conns[k].buffer|
  {
    if n.conns[k].reading && Arrived(n.conns[k].buffer) {
      MessageShrinks(c, n, k);
      MessageLater(c, n, k);
      DrainLater(c, AfterMessage(c, n, k), k);
      LaterTwice(n.waiters, AfterMessage(c, n, k).waiters, Drain(c, n, k).waiters);
      hide AfterMessage, Arrived, Later;
    }
  }

  lemma StepLater(c: Codec, n: Net, e: Event)
    ensures Later(n.waiters, After(c, n, e).waiters)
  {
    if e.Chunk? && e.conn < |n.conns| {
      DrainLater(c, Buffered(n, e.conn, e.data), e.conn);
    }
    hide Drain;
  }

  lemma RunMore(c: Codec, events: seq<Event>, more: seq<Event>)
    ensures more == [] ==> events + more == events
    ensures more != [] ==>
              Run(c, events + more) == After(c, Run(c, events + more[..|more| - 1]), more[|more| - 1])
  {
    hide After;
    if more != [] {
      assert (events + more)[..|events + more| - 1] == events + more[..|more| - 1];
    }
  }

  /** Every request settles at most once: what has become of it never changes again. */
  lemma {:induction false} SettlesOnce(c: Codec, events: seq<Event>, more: seq<Event>)
    ensures Later(Run(c, events).waiters, Run(c, events + more).waiters)
  {
    hide Run, After;
    RunMore(c, events, more);
    if more != [] {
      var n := Run(c, events + more[..|more| - 1]);
      SettlesOnce(c, events, more[..|more| - 1]);
      StepLater(c, n, more[|more| - 1]);
      LaterTwice(Run(c, events).waiters, n.waiters, Run(c, events + more).waiters);
    }
  }

  // ------------------------------------------------------------------------- who waits on what

  ghost predicate PendingOk(n: Net) {
    forall k :: 0 <= k < |n.conns| ==>
      forall id <- n.conns[k].pending ::
        && 1 <= id < n.conns[k].nextId
        && n.conns[k].pending[id] < |n.waiters|
        && n.waiters[n.conns[k].pending[id]].key.conn == k && n.waiters[n.conns[k].pending[id]].key.id == id
  }

  ghost predicate WaitsOn(conns: seq<Conn>, w: Asked, i: nat) {
    && w.key.conn < |conns| && 1 <= w.key.id < conns[w.key.conn].nextId
    && (w.fate.Waiting? ==>
          && !conns[w.key.conn].closed && w.key.id in conns[w.key.conn].pending
          && conns[w.key.conn].pending[w.key.id] == i)
  }

  ghost predicate AllWait(n: Net) {
    forall i :: 0 <= i < |n.waiters| ==> WaitsOn(n.conns, n.waiters[i], i)
  }

  ghost predicate Unique(waiters: seq<Asked>) {
    forall i, j :: 0 <= i < j < |waiters| ==>
        waiters[i].key.conn != waiters[j].key.conn || waiters[i].key.id != waiters[j].key.id
  }

  ghost predicate ConnOk(x: Conn) {
    && x.nextId >= 1
    && (x.closed ==> x.pending == map[])
    && (!x.reading ==> x.closed)
  }

  ghost predicate ConnsOk(n: Net) {
    && (n.current.Some? ==> n.current.value < |n.conns|)
    && forall k :: 0 <= k < |n.conns| ==> ConnOk(n.conns[k])
  }

  ghost predicate Linked(n: Net) { PendingOk(n) && AllWait(n) && Unique(n.waiters) && ConnsOk(n) }

  /** Reading changes no link between connections and waiters. */
  lemma BytesKeepLinks(n: Net, k: nat, x: Conn)
    requires Linked(n) && k < |n.conns|
    requires x.pending == n.conns[k].pending && x.nextId == n.conns[k].nextId && x.closed == n.conns[k].closed
        && x.reading == n.conns[k].reading
    ensures Linked(n.(conns := n.conns[k := x]))
  {
    var r := n.(conns := n.conns[k := x]);
    assert PendingOk(r);
    assert AllWait(r) by {
      forall i | 0 <= i < |r.waiters| ensures WaitsOn(r.conns, r.waiters[i], i) {
        assert WaitsOn(n.conns, n.waiters[i], i);
      }
    }
    assert ConnsOk(r);
  }

  lemma ConnectLinked(n: Net)
    requires Linked(n)
    ensures Linked(n.(conns := n.conns + [Conn(map[], 1, false, true, [], [], [])], current := Some(|n.conns|)))
  {
    var r := n.(conns := n.conns + [Conn(map[], 1, false, true, [], [], [])], current := Some(|n.conns|));
    assert PendingOk(r);
    assert AllWait(r) by {
      forall i | 0 <= i < |r.waiters| ensures WaitsOn(r.conns, r.waiters[i], i) {
        assert WaitsOn(n.conns, n.waiters[i], i);
      }
    }
    assert ConnsOk(r);
  }

  lemma RequestLinked(n: Net)
    requires Linked(n)
    ensures Linked(AfterRequest(n))
  {
    if IsConnected(n) {
      var r := AfterRequest(n);
      assert PendingOk(r) by {
        hide AllWait, Unique, WaitsOn;
      }
      assert AllWait(r) by {
        forall i | 0 <= i < |r.waiters| ensures WaitsOn(r.conns, r.waiters[i], i) {
          if i < |n.waiters| {
            assert WaitsOn(n.conns, n.waiters[i], i);
          }
        }
      }
      assert Unique(r.waiters) by {
        forall i | 0 <= i < |n.waiters| ensures WaitsOn(n.conns, n.waiters[i], i) {}
      }
      assert ConnsOk(r);
    }
  }

  /** Nobody is left pending on a connection that failed. */
  lemma FailLinked(n: Net, k: nat)
    requires PendingOk(n) && AllWait(n) && Unique(n.waiters) && ConnsOk(n)
    ensures Linked(Fail(n, k))
    ensures k < |n.conns| ==> Fail(n, k).conns[k].closed
  {
    if k < |n.conns| {
      var r := Fail(n, k);
      assert PendingOk(r);
      assert AllWait(r) by {
        forall i | 0 <= i < |r.waiters| ensures WaitsOn(r.conns, r.waiters[i], i) {
          assert WaitsOn(n.conns, n.waiters[i], i);
          if n.waiters[i].key.conn == k && n.waiters[i].fate.Waiting? {
            assert n.conns[k].pending[n.waiters[i].key.id] in n.conns[k].pending.Values;
          }
        }
      }
      assert ConnsOk(r);
    }
  }

  lemma StopAndFailLinked(n: Net, k: nat)
    requires Linked(n)
    ensures Linked(Fail(StopReading(n, k), k))
  {
    if k < |n.conns| {
      FailLinked(n, k);
      var closed := Fail(n, k);
      var x := closed.conns[k].(reading := false);
      assert Fail(StopReading(n, k), k) == closed.(conns := closed.conns[k := x]) by {
        assert StopReading(n, k).conns[k].pending == n.conns[k].pending;
      }
      ClosedMayStop(closed, k);
    }
  }

  lemma ClosedMayStop(n: Net, k: nat)
    requires Linked(n) && k < |n.conns| && n.conns[k].closed
    ensures Linked(n.(conns := n.conns[k := n.conns[k].(reading := false)]))
  {
    var r := n.(conns := n.conns[k := n.conns[k].(reading := false)]);
    assert PendingOk(r);
    assert AllWait(r) by {
      forall i | 0 <= i < |r.waiters| ensures WaitsOn(r.conns, r.waiters[i], i) {
        assert WaitsOn(n.conns, n.waiters[i], i);
      }
    }
    assert ConnsOk(r);
  }

  lemma SettleLinked(n: Net, w: nat, fate: Fate<Reply>)
    requires Linked(n) && w < |n.waiters| && !fate.Waiting?
    ensures Linked(n.(waiters := n.waiters[w := n.waiters[w].(fate := fate)]))
  {
    var r := n.(waiters := n.waiters[w := n.waiters[w].(fate := fate)]);
    assert PendingOk(r);
    assert AllWait(r) by {
      forall i | 0 <= i < |r.waiters| ensures WaitsOn(r.conns, r.waiters[i], i) {
        assert WaitsOn(n.conns, n.waiters[i], i);
      }
    }
    assert Unique(r.waiters);
  }

  lemma ForgetLinked(n: Net, k: nat, id: nat)
    requires Linked(n) && k < |n.conns| && id in n.conns[k].pending
    requires !n.waiters[n.conns[k].pending[id]].fate.Waiting?
    ensures Linked(n.(conns := n.conns[k := n.conns[k].(pending := n.conns[k].pending - {id})]))
  {
    var r := n.(conns := n.conns[k := n.conns[k].(pending := n.conns[k].pending - {id})]);
    assert PendingOk(r);
    assert AllWait(r) by {
      forall i | 0 <= i < |r.waiters| ensures WaitsOn(r.conns, r.waiters[i], i) {
        assert WaitsOn(n.conns, n.waiters[i], i);
      }
    }
    assert ConnsOk(r) by {
      assert ConnOk(n.conns[k]);
    }
  }

  lemma {:induction false} DeliverLinked(n: Net, k: nat, id: nat, f: Frame)
    requires Linked(n) && k < |n.conns| && n.conns[k].seen != []
    ensures Linked(Deliver(n, k, id, f))
  {
    if id in n.conns[k].pending {
      var w := n.conns[k].pending[id];
      if n.waiters[w].fate.Waiting? {
        var fate := Got(Reply(f, |n.conns[k].seen| - 1));
        SettleLinked(n, w, fate);
        ForgetLinked(n.(waiters := n.waiters[w := n.waiters[w].(fate := fate)]), k, id);
      } else {
        ForgetLinked(n, k, id);
      }
    } else {
      SamePushes(n, Deliver(n, k, id, f));
    }
  }

  lemma SamePushes(n: Net, r: Net)
    requires Linked(n) && r == n.(pushes := r.pushes)
    ensures Linked(r)
  {}

  lemma {:induction false} MessageLinked(c: Codec, n: Net, k: nat)
    requires Linked(n) && k < |n.conns| && Arrived(n.conns[k].buffer)
    ensures Linked(AfterMessage(c, n, k))
  {
    hide Arrived, FirstMessage, PayloadEnd, Decode, Deliver, Fail, Linked, StopReading;
    var m, taken := FirstMessage(n.conns[k].buffer), Taken(n, k);
    BytesKeepLinks(n, k, taken.conns[k]);
    match Decode(c, m.payload) {
      case Ok(f) => DeliverLinked(taken, k, m.id, f);
      case _ => StopAndFailLinked(taken, k);
    }
  }

  lemma {:induction false} DrainLinked(c: Codec, n: Net, k: nat)
    requires Linked(n) && k < |n.conns|
    ensures Linked(Drain(c, n, k))
    decreases |n.conns[k].buffer|
  {
    hide AfterMessage, Arrived, Linked;
    if n.conns[k].reading && Arrived(n.conns[k].buffer) {
      MessageShrinks(c, n, k);
      MessageLinked(c, n, k);
      DrainLinked(c, AfterMessage(c, n, k), k);
    }
  }

  lemma {:induction false} StepLinked(c: Codec, n: Net, e: Event)
    requires Linked(n)
    ensures Linked(After(c, n, e))
  {
    hide Linked, Drain, Fail, StopReading, AfterRequest;
    match e {
      case Connected => ConnectLinked(n);
      case Request => RequestLinked(n);
      case Chunk(k, data) =>
        if k < |n.conns| {
          BytesKeepLinks(n, k, Buffered(n, k, data).conns[k]);
          DrainLinked(c, Buffered(n, k, data), k);
        }
      case Lost(k) => StopAndFailLinked(n, k);
      case GiveUp(w) =>
        if w < |n.waiters| {
          SettleLinked(n, w, Abandoned);
        }
      case Migrate => DropLinked(n);
      case Close => DropLinked(n);
    }
  }

  lemma DropLinked(n: Net)
    requires Linked(n)
    ensures n.current.Some? ==> Linked(Fail(n, n.current.value)) && Linked(Fail(n, n.current.value).(current := None))
    ensures Linked(n.(current := None))
  {
    if n.current.Some? {
      FailLinked(n, n.current.value);
      NoCurrent(Fail(n, n.current.value));
    }
    NoCurrent(n);
  }

  lemma NoCurrent(n: Net)
    requires Linked(n)
    ensures Linked(n.(current := None))
  {}

  lemma {:induction false} RunLinked(c: Codec, events: seq<Event>)
    ensures Linked(Run(c, events))
  {
    if events != [] {
      RunLinked(c, events[..|events| - 1]);
      StepLinked(c, Run(c, events[..|events| - 1]), events[|events| - 1]);
      hide After, Linked;
    }
  }

  // --------------------------------------------------------------------------- what they are given

  ghost predicate NoReply(seen: seq<Message>, id: nat, from: nat, to: nat) {
    forall r :: from <= r < to && r < |seen| ==> seen[r].id != id
  }

  /** A waiter has got the first message with its id that its connection delivered after the request; if
      there was none, it has got nothing. */
  ghost predicate Answered(c: Codec, seen: seq<Message>, w: Asked) {
    && w.key.since <= |seen|
    && (w.fate.Waiting? ==> NoReply(seen, w.key.id, w.key.since, |seen|))
    && (w.fate.Got? ==>
          && w.key.since <= w.fate.reply.at < |seen| && seen[w.fate.reply.at].id == w.key.id
          && Decode(c, seen[w.fate.reply.at].payload) == Ok(w.fate.reply.frame)
          && NoReply(seen, w.key.id, w.key.since, w.fate.reply.at))
  }

  ghost predicate Replied(c: Codec, n: Net) {
    forall i :: 0 <= i < |n.waiters| ==>
      n.waiters[i].key.conn < |n.conns| && Answered(c, n.conns[n.waiters[i].key.conn].seen, n.waiters[i])
  }

  /** What was read of a connection is the first part of what its bytes say. */
  ghost predicate Faithful(x: Conn) {
    if x.reading then ReadAll(x.input) == (x.seen + ReadAll(x.buffer).0, ReadAll(x.buffer).1)
    else x.seen <= ReadAll(x.input).0
  }

  ghost predicate AllFaithful(n: Net) {
    forall k :: 0 <= k < |n.conns| ==> Faithful(n.conns[k])
  }

  /** Steps that read nothing keep both. */
  ghost predicate ReadsNothing(n: Net, r: Net) {
    && |n.conns| <= |r.conns|
    && (forall k :: 0 <= k < |n.conns| ==>
          && r.conns[k].seen == n.conns[k].seen && r.conns[k].input == n.conns[k].input
          && r.conns[k].buffer == n.conns[k].buffer && (r.conns[k].reading ==> n.conns[k].reading))
    && (forall k :: |n.conns| <= k < |r.conns| ==>
          r.conns[k].seen == [] && r.conns[k].input == [] && r.conns[k].buffer == [])
    && |n.waiters| <= |r.waiters|
    && (forall i :: 0 <= i < |n.waiters| ==>
          r.waiters[i] == n.waiters[i] || (r.waiters[i].key == n.waiters[i].key
                                           && (r.waiters[i].fate.Failed? || r.waiters[i].fate.Abandoned?)))
    && (forall i :: |n.waiters| <= i < |r.waiters| ==>
          r.waiters[i].key.conn < |r.conns| && r.waiters[i].key.since == |r.conns[r.waiters[i].key.conn].seen|
              && r.waiters[i].fate.Waiting?)
  }

  lemma NothingReadNothingLost(c: Codec, n: Net, r: Net)
    requires Replied(c, n) && AllFaithful(n) && ReadsNothing(n, r)
    ensures Replied(c, r) && AllFaithful(r)
  {
    hide Decode, ReadAll;
    forall i | 0 <= i < |r.waiters|
      ensures r.waiters[i].key.conn < |r.conns| && Answered(c, r.conns[r.waiters[i].key.conn].seen, r.waiters[i])
    {
      if i < |n.waiters| {
        assert Answered(c, n.conns[n.waiters[i].key.conn].seen, n.waiters[i]);
      }
    }
    forall k | 0 <= k < |r.conns| ensures Faithful(r.conns[k]) {
      if k < |n.conns| {
        assert Faithful(n.conns[k]);
      } else {
        NothingIsFaithful(r.conns[k]);
      }
    }
  }

  lemma NothingIsFaithful(x: Conn)
    requires x.seen == [] && x.input == [] && x.buffer == []
    ensures Faithful(x)
  {
    assert [] + ReadAll([]).0 == ReadAll([]).0;
  }

  lemma QuietSteps(c: Codec, n: Net, e: Event)
    requires Linked(n) && !e.Chunk?
    ensures ReadsNothing(n, After(c, n, e))
  {
    hide Unique, AllWait, PendingOk;
  }

  // one message

  lemma MessageAnswers(c: Codec, n: Net, k: nat, i: nat)
    requires Linked(n) && Replied(c, n) && k < |n.conns| && Arrived(n.conns[k].buffer) && i < |n.waiters|
    ensures var r := AfterMessage(c, n, k);
            && |r.waiters| == |n.waiters| && |r.conns| == |n.conns|
            && r.waiters[i].key.conn < |r.conns| && Answered(c, r.conns[r.waiters[i].key.conn].seen, r.waiters[i])
  {
    hide FirstMessage, PayloadEnd, Arrived, Decode, Unique, ConnsOk, Deliver, Fail, StopReading;
    var m, taken := FirstMessage(n.conns[k].buffer), Taken(n, k);
    assert WaitsOn(n.conns, n.waiters[i], i);
    assert Answered(c, n.conns[n.waiters[i].key.conn].seen, n.waiters[i]);
    match Decode(c, m.payload) {
      case Ok(f) => DeliverAnswers(c, n, k, m, f, i);
      case _ => FailAnswers(c, n, k, i);
    }
  }

  lemma DeliverAnswers(c: Codec, n: Net, k: nat, m: Message, f: Frame, i: nat)
    requires PendingOk(n) && k < |n.conns| && Arrived(n.conns[k].buffer) && m == FirstMessage(n.conns[k].buffer)
    requires Decode(c, m.payload) == Ok(f) && i < |n.waiters|
    requires WaitsOn(n.conns, n.waiters[i], i) && Answered(c, n.conns[n.waiters[i].key.conn].seen, n.waiters[i])
    ensures var r := Deliver(Taken(n, k), k, m.id, f);
            && |r.waiters| == |n.waiters| && |r.conns| == |n.conns|
            && r.waiters[i].key.conn < |r.conns| && Answered(c, r.conns[r.waiters[i].key.conn].seen, r.waiters[i])
  {
    hide FirstMessage, PayloadEnd, Arrived, Decode;
  }

  lemma FailAnswers(c: Codec, n: Net, k: nat, i: nat)
    requires k < |n.conns| && Arrived(n.conns[k].buffer) && i < |n.waiters|
    requires WaitsOn(n.conns, n.waiters[i], i) && Answered(c, n.conns[n.waiters[i].key.conn].seen, n.waiters[i])
    ensures var r := Fail(StopReading(Taken(n, k), k), k);
            && |r.waiters| == |n.waiters| && |r.conns| == |n.conns|
            && r.waiters[i].key.conn < |r.conns| && Answered(c, r.conns[r.waiters[i].key.conn].seen, r.waiters[i])
  {
    hide FirstMessage, PayloadEnd, Arrived, Decode;
    var w := n.waiters[i];
    if w.fate.Waiting? && w.key.conn == k {
      assert n.conns[k].pending[w.key.id] in n.conns[k].pending.Values;
    }
  }

  lemma MessageFaithful(c: Codec, n: Net, k: nat)
    requires Linked(n) && AllFaithful(n) && k < |n.conns| && n.conns[k].reading && Arrived(n.conns[k].buffer)
    ensures AllFaithful(AfterMessage(c, n, k))
  {
    var x, r := n.conns[k], AfterMessage(c, n, k);
    assert Faithful(x);
    var m, tail := FirstMessage(x.buffer), x.buffer[PayloadEnd(x.buffer)..];
    assert ReadAll(x.buffer) == ([m] + ReadAll(tail).0, ReadAll(tail).1);
    assert x.seen + ([m] + ReadAll(tail).0) == (x.seen + [m]) + ReadAll(tail).0;
    hide FirstMessage, PayloadEnd, Arrived, Decode, ReadAll, Linked;
    assert r.conns[k].seen == x.seen + [m] && r.conns[k].buffer == tail && r.conns[k].input == x.input;
    assert Faithful(r.conns[k]);
    assert forall j :: 0 <= j < |n.conns| && j != k ==> r.conns[j] == n.conns[j];
  }

  lemma {:induction false} DrainKeeps(c: Codec, n: Net, k: nat)
    requires Linked(n) && Replied(c, n) && AllFaithful(n) && k < |n.conns|
    ensures var r := Drain(c, n, k); Replied(c, r) && AllFaithful(r)
    decreases |n.conns[k].buffer|
  {
    if n.conns[k].reading && Arrived(n.conns[k].buffer) {
      MessageShrinks(c, n, k);
      MessageLinked(c, n, k);
      forall i | 0 <= i < |n.waiters|
        ensures var r := AfterMessage(c, n, k);
                && |r.waiters| == |n.waiters|
                && r.waiters[i].key.conn < |r.conns| && Answered(c, r.conns[r.waiters[i].key.conn].seen, r.waiters[i])
      {
        MessageAnswers(c, n, k, i);
      }
      SameWaiters(c, n, k);
      MessageFaithful(c, n, k);
      DrainKeeps(c, AfterMessage(c, n, k), k);
      hide AfterMessage, Arrived, Answered, Linked, AllFaithful;
    }
  }

  lemma SameWaiters(c: Codec, n: Net, k: nat)
    requires k < |n.conns| && Arrived(n.conns[k].buffer)
    ensures |AfterMessage(c, n, k).waiters| == |n.waiters|
  {
    hide Decode, FirstMessage, PayloadEnd, Arrived;
  }

  lemma BufferKeeps(c: Codec, n: Net, k: nat, data: bytes)
    requires Replied(c, n) && AllFaithful(n) && k < |n.conns| && n.conns[k].reading
    ensures var r := Buffered(n, k, data); Replied(c, r) && AllFaithful(r)
  {
    var x, r := n.conns[k], Buffered(n, k, data);
    assert Faithful(x);
    MoreIsFaithful(x, data);
    hide Decode, Faithful, NoReply;
    assert forall j :: 0 <= j < |n.conns| ==> r.conns[j].seen == n.conns[j].seen;
  }

  lemma MoreIsFaithful(x: Conn, data: bytes)
    requires Faithful(x) && x.reading
    ensures Faithful(x.(input := x.input + data, buffer := x.buffer + data))
  {
    ReadSplits(x.input, data);
    ReadSplits(x.buffer, data);
    hide ReadAll;
    var first, second := ReadAll(x.buffer), ReadAll(ReadAll(x.buffer).1 + data);
    assert (x.seen + first.0) + second.0 == x.seen + (first.0 + second.0);
  }

  lemma {:induction false} RunReplied(c: Codec, events: seq<Event>)
    ensures Replied(c, Run(c, events)) && AllFaithful(Run(c, events))
  {
    if events != [] {
      var n, e := Run(c, events[..|events| - 1]), events[|events| - 1];
      RunReplied(c, events[..|events| - 1]);
      RunLinked(c, events[..|events| - 1]);
      hide Linked, Replied, AllFaithful;
      if e.Chunk? {
        if e.conn < |n.conns| && n.conns[e.conn].reading {
          BufferKeeps(c, n, e.conn, e.data);
          BytesKeepLinks(n, e.conn, Buffered(n, e.conn, e.data).conns[e.conn]);
          DrainKeeps(c, Buffered(n, e.conn, e.data), e.conn);
        }
      } else {
        QuietSteps(c, n, e);
        NothingReadNothingLost(c, n, After(c, n, e));
      }
      hide Drain, ReadsNothing;
    }
  }

  // -------------------------------------------------------------------------------------- theorems

  /** A request that has its reply got it from its own connection under its own id, which is never 0: the
      first message with that id that came after the request. */
  lemma ReplyIsOwn(c: Codec, events: seq<Event>, i: nat)
    requires i < |Run(c, events).waiters|
    ensures var n := Run(c, events);
            var w := n.waiters[i];
            && w.key.id != ONEWAY && w.key.conn < |n.conns| && Answered(c, n.conns[w.key.conn].seen, w)
  {
    RunReplied(c, events);
    RunLinked(c, events);
    assert WaitsOn(Run(c, events).conns, Run(c, events).waiters[i], i);
    hide Answered;
  }

  /** No message answers two requests. */
  lemma NoMessageAnswersTwice(c: Codec, events: seq<Event>, i: nat, j: nat)
    requires i < |Run(c, events).waiters| && j < |Run(c, events).waiters|
    requires var a, b := Run(c, events).waiters[i], Run(c, events).waiters[j];
             a.fate.Got? && b.fate.Got? && a.key.conn == b.key.conn && a.fate.reply.at == b.fate.reply.at
    ensures i == j
  {
    ReplyIsOwn(c, events, i);
    ReplyIsOwn(c, events, j);
    RunLinked(c, events);
    hide Run, NoReply, Decode, PendingOk, AllWait;
  }

  /** Whoever still waits, waits on a connection that is open and being read: a connection that failed, was
      closed or was migrated away from leaves nobody behind. */
  lemma NobodyLeftBehind(c: Codec, events: seq<Event>, i: nat)
    requires i < |Run(c, events).waiters| && Run(c, events).waiters[i].fate.Waiting?
    ensures var n := Run(c, events);
            var k := n.waiters[i].key.conn;
            k < |n.conns| && !n.conns[k].closed && n.conns[k].reading
  {
    RunLinked(c, events);
    assert WaitsOn(Run(c, events).conns, Run(c, events).waiters[i], i);
    hide Run;
  }

  lemma {:induction false} MigrationSettlesEverybody(c: Codec, events: seq<Event>, i: nat)
    requires var n := Run(c, events); i < |n.waiters| && n.current == Some(n.waiters[i].key.conn)
    ensures i < |Run(c, events + [Migrate]).waiters| && !Run(c, events + [Migrate]).waiters[i].fate.Waiting?
  {
    SettlesOnce(c, events, [Migrate]);
    assert (events + [Migrate])[..|events|] == events;
    var r := Run(c, events + [Migrate]);
    if r.waiters[i].fate.Waiting? {
      NobodyLeftBehind(c, events + [Migrate], i);
    }
  }

  /** End to end: if connection k's peer wrote the packed messages ms and any part of those bytes has
      arrived, in whatever pieces, then a reply on that connection is the decoded payload of a message of ms
      that carries the request's id. */
  lemma {:induction false} ReplyIsWhatThePeerSent(c: Codec, events: seq<Event>, i: nat, ms: seq<Message>)
    requires (forall m <- ms :: Packable(m)) && i < |Run(c, events).waiters| && Run(c, events).waiters[i].fate.Got?
    requires Run(c, events).waiters[i].key.conn < |Run(c, events).conns|
    requires Run(c, events).conns[Run(c, events).waiters[i].key.conn].input <= PackAll(ms)
    ensures var w := Run(c, events).waiters[i];
            w.fate.reply.at < |ms| && ms[w.fate.reply.at].id == w.key.id
                && Decode(c, ms[w.fate.reply.at].payload) == Ok(w.fate.reply.frame)
  {
    ReplyIsOwn(c, events, i);
    RunReplied(c, events);
    var n := Run(c, events);
    var x := n.conns[n.waiters[i].key.conn];
    assert Faithful(x);
    InputSays(ms, x.input);
    hide Run, ReadAll, Decode, PackAll, Packable;
    assert x.seen <= ReadAll(x.input).0;
    assert x.seen <= ms;
  }

  lemma InputSays(ms: seq<Message>, input: bytes)
    requires (forall m <- ms :: Packable(m)) && input <= PackAll(ms)
    ensures ReadAll(input).0 <= ms
  {
    assert [input][..0] == [];
    assert Flatten([input]) == [] + input == input;
    PackedMessagesAreReadBack(ms, [input]);
    ChunksDoNotMatter([input]);
  }

  /** A reply that does not decode, such as the empty one that the server sends when its handler failed,
      takes the whole connection down: everybody waiting on it fails. */
  lemma BadReplyFailsEverybody(c: Codec, n: Net, k: nat, i: nat)
    requires Linked(n) && k < |n.conns| && Arrived(n.conns[k].buffer) && i < |n.waiters|
    requires n.waiters[i].key.conn == k && n.waiters[i].fate.Waiting?
    requires FirstMessage(n.conns[k].buffer).payload == []
    ensures AfterMessage(c, n, k).conns[k].closed && AfterMessage(c, n, k).waiters[i].fate.Failed?
  {
    assert Decode(c, []) == ValueError;
    hide Decode, Arrived, FirstMessage, PayloadEnd;
    assert WaitsOn(n.conns, n.waiters[i], i);
    assert n.conns[k].pending[n.waiters[i].key.id] in n.conns[k].pending.Values;
  }
}
