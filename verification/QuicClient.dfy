/** The client end of the QUIC tunnel: every request has a stream of its own, the server's pushes come on
    streams of theirs, and pass-through streams are routed past the frames. */
module QuicCorrelation {
  import opened Prelude
  import opened Protocol
  import opened Waiters

  /** late: the request was made on a connection that had already ended. */
  datatype Place = Place(stream: nat, late: bool)

  type Asked = Waiter<Place, Frame>

  /** arrived and finished record what each stream has carried; buffers, pending and relays are the
      program's own tables. */
  datatype Client = Client(
    buffers: map<nat, bytes>, pending: map<nat, nat>, relays: set<nat>, nextId: nat, terminated: bool,
    waiters: seq<Asked>, pushes: seq<(nat, Frame)>, arrived: map<nat, bytes>, finished: set<nat>)

  datatype Event =
    | Ask
    | OpenStream
    | Data(stream: nat, data: bytes, end: bool)
    | Reset(stream: nat)
    | GiveUp(waiter: nat)
    | Terminated

  function Initial(): Client { Client(map[], map[], {}, 0, false, [], [], map[], {}) }

  function Carried(m: map<nat, bytes>, id: nat): bytes { if id in m then m[id] else [] }

  /** The whole payload of a stream: the reply that is waited for, or a push.  What does not decode is
      dropped, and whoever waits for it goes on waiting. */
  function Deliver(c: Codec, n: Client, id: nat, payload: bytes): Client {
    match Decode(c, payload)
    case Ok(f) =>
      if id in n.pending then
        var w := n.pending[id];
        var n1 := n.(pending := n.pending - {id});
        if w < |n.waiters| && n.waiters[w].fate.Waiting?
        then n1.(waiters := n.waiters[w := n.waiters[w].(fate := Got(f))]) else n1
      else n.(pushes := n.pushes + [(id, f)])
    case _ => n
  }

  /** What the transport never delivers: anything behind a stream's end, on a connection that has ended, or
      on a client's stream that was not opened (sections 2.1 and 2.2 of RFC 9000). */
  predicate Impossible(n: Client, id: nat) {
    id in n.finished || n.terminated || (IsRequestId(id) && id >= n.nextId)
  }

  predicate IsRequestId(id: nat) { id % 4 == 0 }

  predicate IsPushId(id: nat) { id % 4 == 3 }

  function AfterData(c: Codec, n: Client, id: nat, data: bytes, end: bool): Client {
    if Impossible(n, id) then n
    else
      var n1 := n.(arrived := n.arrived[id := Carried(n.arrived, id) + data],
                   finished := if end then n.finished + {id} else n.finished);
      if id in n.relays then n1.(relays := if end then n.relays - {id} else n.relays)
      else
        var buf := Carried(n.buffers, id) + data;
        if end then Deliver(c, n1.(buffers := n.buffers - {id}), id, buf)
        else n1.(buffers := n.buffers[id := buf])
  }

  function After(c: Codec, n: Client, e: Event): Client {
    match e
    case Ask =>
      n.(pending := n.pending[n.nextId := |n.waiters|], nextId := n.nextId + 4,
         waiters := n.waiters + [Waiter(Place(n.nextId, n.terminated), Waiting)])
    case OpenStream => n.(relays := n.relays + {n.nextId}, nextId := n.nextId + 4)
    case Data(id, data, end) => AfterData(c, n, id, data, end)
    case Reset(id) => if id in n.relays then n.(relays := n.relays - {id}, finished := n.finished + {id}) else n
    case GiveUp(w) =>
      if w < |n.waiters| && n.waiters[w].fate.Waiting?
      then n.(waiters := n.waiters[w := n.waiters[w].(fate := Abandoned)]) else n
    case Terminated => n.(terminated := true, waiters := FailAll(n.waiters, n.pending.Values), pending := map[],
                          relays := {})
  }

  function Run(c: Codec, events: seq<Event>): Client {
    if events == [] then Initial() else After(c, Run(c, events[..|events| - 1]), events[|events| - 1])
  }

  // -------------------------------------------------------------------------------------- the class

  class ClientProtocol {
    const codec: Codec
    var buffers: map<nat, bytes>
    var pending: map<nat, nat>
    var relays: set<nat>
    var nextId: nat
    var terminated: bool
    var waiters: seq<Asked>
    var pushes: seq<(nat, Frame)>
    ghost var arrived: map<nat, bytes>
    ghost var finished: set<nat>

    ghost function Value(): Client
      reads this
    {
      Client(buffers, pending, relays, nextId, terminated, waiters, pushes, arrived, finished)
    }

    constructor (codec: Codec)
      ensures this.codec == codec && Value() == Initial()
    {
      this.codec := codec;
      buffers, pending, relays, nextId, terminated := map[], map[], {}, 0, false;
      waiters, pushes, arrived, finished := [], [], map[], {};
    }

    method OpenRequest() returns (w: nat)
      modifies this
      ensures Value() == After(codec, old(Value()), Ask) && w == |old(waiters)|
    {
      w := |waiters|;
      waiters := waiters + [Waiter(Place(nextId, terminated), Waiting)];
      pending := pending[nextId := w];
      nextId := nextId + 4;
    }

    /** The stream is routed from now on; what is read from it is the relay's business. */
    method OpenRelay() returns (id: nat)
      modifies this`relays, this`nextId
      ensures Value() == After(codec, old(Value()), OpenStream) && id == old(nextId)
    {
      id := nextId;
      relays := relays + {id};
      nextId := nextId + 4;
    }

    method DataReceived(id: nat, data: bytes, end: bool)
      requires !Impossible(Value(), id)
      modifies this
      ensures Value() == After(codec, old(Value()), Data(id, data, end))
    {
      arrived := arrived[id := Carried(arrived, id) + data];
      finished := if end then finished + {id} else finished;
      if id in relays {
        if end {
          relays := relays - {id};
        }
        return;
      }
      var buf := Carried(buffers, id) + data;
      if !end {
        buffers := buffers[id := buf];
        return;
      }
      buffers := buffers - {id};
      HandOver(id, buf);
    }

    method HandOver(id: nat, payload: bytes)
      modifies this`pending, this`waiters, this`pushes
      ensures Value() == Deliver(codec, old(Value()), id, payload)
    {
      match Decode(codec, payload) {
        case Ok(f) =>
          if id in pending {
            var w := pending[id];
            pending := pending - {id};
            if w < |waiters| && waiters[w].fate.Waiting? {
              waiters := waiters[w := waiters[w].(fate := Got(f))];
            }
          } else {
            pushes := pushes + [(id, f)];
          }
        case _ =>  // dropped
      }
    }

    method ConnectionTerminated()
      modifies this
      ensures Value() == After(codec, old(Value()), Terminated)
    {
      terminated := true;
      waiters := FailThem(waiters, pending.Values);
      pending, relays := map[], {};
    }
  }

  // ------------------------------------------------------------------------------- settled only once

  lemma StepLater(c: Codec, n: Client, e: Event)
    ensures Later(n.waiters, After(c, n, e).waiters)
  {
    hide Decode;
  }

  lemma RunMore(c: Codec, events: seq<Event>, more: seq<Event>)
    ensures more == [] ==> events + more == events
    ensures more != [] ==>
              Run(c, events + more) == After(c, Run(c, events + more[..|more| - 1]), more[|more| - 1])
  {
    hide After;
    if more != [] {
      assert (events + more)[..|events + more| - 1] == events + more[..|more| - 1];
    }
  }

  /** Whatever happens later, a request that has settled stays as it is. */
  lemma {:induction false} SettlesOnce(c: Codec, events: seq<Event>, more: seq<Event>)
    ensures Later(Run(c, events).waiters, Run(c, events + more).waiters)
  {
    hide Run, After;
    RunMore(c, events, more);
    if more != [] {
      var n := Run(c, events + more[..|more| - 1]);
      SettlesOnce(c, events, more[..|more| - 1]);
      StepLater(c, n, more[|more| - 1]);
      LaterTwice(Run(c, events).waiters, n.waiters, Run(c, events + more).waiters);
    }
  }

  // --------------------------------------------------------------------------------------- invariants

  /** Streams of requests, of relays and of pushes are told apart by number. */
  ghost predicate Numbered(n: Client) {
    && IsRequestId(n.nextId)
    && (forall i :: 0 <= i < |n.waiters| ==>
          IsRequestId(n.waiters[i].key.stream) && n.waiters[i].key.stream < n.nextId
              && n.waiters[i].key.stream !in n.relays)
    && (forall i, j :: 0 <= i < j < |n.waiters| ==> n.waiters[i].key.stream != n.waiters[j].key.stream)
    && (forall id <- n.relays :: IsRequestId(id) && id < n.nextId)
    && (forall id <- n.finished :: IsRequestId(id) ==> id < n.nextId)
    && (forall id <- n.arrived :: IsRequestId(id) ==> id < n.nextId)
  }

  ghost predicate Links(pending: map<nat, nat>, waiters: seq<Asked>, terminated: bool) {
    && (forall id <- pending :: pending[id] < |waiters| && waiters[pending[id]].key.stream == id)
    && (forall i :: 0 <= i < |waiters| && waiters[i].fate.Waiting? ==>
          && waiters[i].key.stream in pending && pending[waiters[i].key.stream] == i
          && (terminated ==> waiters[i].key.late))
    && (forall i :: 0 <= i < |waiters| && waiters[i].fate.Failed? ==> terminated)
  }

  ghost predicate Linked(n: Client) { Links(n.pending, n.waiters, n.terminated) }

  ghost predicate Buffered(n: Client) {
    !n.terminated ==> forall id: nat :: id !in n.finished && id !in n.relays ==>
                        Carried(n.buffers, id) == Carried(n.arrived, id)
  }

  ghost predicate ReplyOk(c: Codec, n: Client, w: Asked) {
    && (w.fate.Got? ==> w.key.stream in n.finished && Decode(c, Carried(n.arrived, w.key.stream)) == Ok(w.fate.reply))
    && (w.fate.Waiting? ==> w.key.stream in n.finished ==> !Decode(c, Carried(n.arrived, w.key.stream)).Ok?)
  }

  ghost predicate Replied(c: Codec, n: Client) {
    forall i :: 0 <= i < |n.waiters| ==> ReplyOk(c, n, n.waiters[i])
  }

  ghost predicate PushIn(pushes: seq<(nat, Frame)>, id: nat, f: Frame) { (id, f) in pushes }

  ghost predicate Genuine(c: Codec, n: Client) {
    forall p <- n.pushes :: p.0 in n.finished && Decode(c, Carried(n.arrived, p.0)) == Ok(p.1)
  }

  ghost predicate OneEach(pushes: seq<(nat, Frame)>) {
    forall i, j :: 0 <= i < j < |pushes| ==> pushes[i].0 != pushes[j].0
  }

  ghost predicate Complete(c: Codec, n: Client) {
    forall id <- n.finished :: IsPushId(id) && Decode(c, Carried(n.arrived, id)).Ok? ==>
      PushIn(n.pushes, id, Decode(c, Carried(n.arrived, id)).value)
  }

  ghost predicate Pushed(c: Codec, n: Client) { Genuine(c, n) && OneEach(n.pushes) && Complete(c, n) }

  ghost predicate Inv(c: Codec, n: Client) {
    Numbered(n) && Linked(n) && Buffered(n) && Replied(c, n) && Pushed(c, n)
  }

  lemma NumberedQuiet(c: Codec, n: Client, e: Event)
    requires Numbered(n) && !e.Data?
    ensures Numbered(After(c, n, e))
  {
    hide Decode;
  }

  lemma NumberedData(c: Codec, n: Client, id: nat, data: bytes, end: bool)
    requires Numbered(n)
    ensures Numbered(AfterData(c, n, id, data, end))
  {
    hide Deliver;
    if !Impossible(n, id) && id !in n.relays && end {
      var whole := n.(arrived := n.arrived[id := Carried(n.arrived, id) + data], finished := n.finished + {id},
                      buffers := n.buffers - {id});
      assert Numbered(whole);
      DeliverNumbered(c, whole, id, Carried(n.buffers, id) + data);
    }
  }

  lemma DeliverNumbered(c: Codec, n: Client, id: nat, payload: bytes)
    requires Numbered(n)
    ensures Numbered(Deliver(c, n, id, payload))
  {
    hide Decode;
  }

  lemma LinkedQuiet(c: Codec, n: Client, e: Event)
    requires Numbered(n) && Linked(n) && !e.Data?
    ensures Linked(After(c, n, e))
  {
    match e {
      case Ask => AskLinks(n);
      case GiveUp(w) => GiveUpLinks(n, w);
      case Terminated => EndLinks(n);
      case _ =>
    }
    hide Links, FailAll;
  }

  lemma AskLinks(n: Client)
    requires Numbered(n) && Linked(n)
    ensures Links(n.pending[n.nextId := |n.waiters|], n.waiters + [Waiter(Place(n.nextId, n.terminated), Waiting)],
                  n.terminated)
  {
    assert n.nextId !in n.pending;
  }

  lemma GiveUpLinks(n: Client, w: nat)
    requires Linked(n)
    ensures w < |n.waiters| ==> Links(n.pending, n.waiters[w := n.waiters[w].(fate := Abandoned)], n.terminated)
  {}

  lemma EndLinks(n: Client)
    requires Linked(n)
    ensures Links(map[], FailAll(n.waiters, n.pending.Values), true)
  {
    forall i | 0 <= i < |n.waiters| && n.waiters[i].fate.Waiting? ensures i in n.pending.Values {
      assert n.pending[n.waiters[i].key.stream] in n.pending.Values;
    }
  }

  lemma LinkedData(c: Codec, n: Client, id: nat, data: bytes, end: bool)
    requires Linked(n)
    ensures Linked(AfterData(c, n, id, data, end))
  {
    hide Decode, Deliver, Links;
    DeliverLinked(c, n, id, Carried(n.buffers, id) + data);
    if !Impossible(n, id) && id !in n.relays && end {
      var n1 := n.(arrived := n.arrived[id := Carried(n.arrived, id) + data], finished := n.finished + {id},
                   buffers := n.buffers - {id});
      DeliverLinked(c, n1, id, Carried(n.buffers, id) + data);
    }
  }

  lemma DeliverLinked(c: Codec, n: Client, id: nat, payload: bytes)
    requires Linked(n)
    ensures Linked(Deliver(c, n, id, payload))
  {
    hide Decode;
  }

  lemma BufferedQuiet(c: Codec, n: Client, e: Event)
    requires Numbered(n) && Buffered(n) && !e.Data?
    ensures Buffered(After(c, n, e))
  {
    hide Decode;
  }

  lemma BufferedData(c: Codec, n: Client, id: nat, data: bytes, end: bool)
    requires Numbered(n) && Buffered(n)
    ensures Buffered(AfterData(c, n, id, data, end))
  {
    hide Decode;
  }

  lemma RepliedQuiet(c: Codec, n: Client, e: Event)
    requires Numbered(n) && Linked(n) && Replied(c, n) && !e.Data?
    ensures Replied(c, After(c, n, e))
  {
    hide Decode;
    var r := After(c, n, e);
    forall i | 0 <= i < |r.waiters| ensures ReplyOk(c, r, r.waiters[i]) {
      if i < |n.waiters| {
        assert ReplyOk(c, n, n.waiters[i]);
      }
    }
  }

  lemma {:induction false} RepliedData(c: Codec, n: Client, id: nat, data: bytes, end: bool)
    requires Numbered(n) && Linked(n) && Buffered(n) && Replied(c, n)
    ensures Replied(c, AfterData(c, n, id, data, end))
  {
    hide Decode;
    var r := AfterData(c, n, id, data, end);
    forall i | 0 <= i < |r.waiters| ensures ReplyOk(c, r, r.waiters[i]) {
      DataReplies(c, n, id, data, end, i);
    }
  }

  lemma DataReplies(c: Codec, n: Client, id: nat, data: bytes, end: bool, i: nat)
    requires Numbered(n) && Linked(n) && Buffered(n) && Replied(c, n) && i < |n.waiters|
    ensures var r := AfterData(c, n, id, data, end); |r.waiters| == |n.waiters| && ReplyOk(c, r, r.waiters[i])
  {
    hide Decode, Deliver;
    var w := n.waiters[i];
    assert ReplyOk(c, n, w);
    assert w.key.stream !in n.relays;
    var whole := n.(arrived := n.arrived[id := Carried(n.arrived, id) + data], finished := n.finished + {id},
                    buffers := n.buffers - {id});
    if !Impossible(n, id) && id !in n.relays && end {
      assert Carried(n.buffers, id) == Carried(n.arrived, id);
      WholeReplies(c, n, whole, id, i);
    }
  }

  lemma WholeReplies(c: Codec, n: Client, whole: Client, id: nat, i: nat)
    requires Linked(n) && i < |n.waiters| && ReplyOk(c, n, n.waiters[i]) && id !in n.finished
    requires whole.finished == n.finished + {id} && whole.waiters == n.waiters && whole.pending == n.pending
    requires forall x: nat :: x != id ==> Carried(whole.arrived, x) == Carried(n.arrived, x)
    ensures var r := Deliver(c, whole, id, Carried(whole.arrived, id));
            |r.waiters| == |n.waiters| && ReplyOk(c, r, r.waiters[i])
  {
    hide Decode, Carried;
  }

  lemma PushedQuiet(c: Codec, n: Client, e: Event)
    requires Numbered(n) && Pushed(c, n) && !e.Data?
    ensures Pushed(c, After(c, n, e))
  {
    hide Decode;
  }

  lemma {:induction false} PushedData(c: Codec, n: Client, id: nat, data: bytes, end: bool)
    requires Numbered(n) && Linked(n) && Buffered(n) && Pushed(c, n)
    ensures Pushed(c, AfterData(c, n, id, data, end))
  {
    hide Decode;
    if !Impossible(n, id) && id !in n.relays && end {
      var whole := n.(arrived := n.arrived[id := Carried(n.arrived, id) + data], finished := n.finished + {id},
                      buffers := n.buffers - {id});
      DeliverPushed(c, n, whole, id);
      hide Deliver, Pushed;
    }
  }

  /** The last bytes of a stream: its payload is handed over, and every other stream is as before. */
  lemma DeliverPushed(c: Codec, n: Client, whole: Client, id: nat)
    requires Numbered(n) && Linked(n) && Pushed(c, n) && id !in n.finished
    requires whole.finished == n.finished + {id} && whole.pushes == n.pushes && whole.pending == n.pending
    requires forall x: nat :: x != id ==> Carried(whole.arrived, x) == Carried(n.arrived, x)
    ensures Pushed(c, Deliver(c, whole, id, Carried(whole.arrived, id)))
  {
    hide Carried;
    var r := Deliver(c, whole, id, Carried(whole.arrived, id));
    OnePush(c, n, whole, id);
    hide Deliver, Decode, Numbered, Linked;
    assert OneEach(r.pushes) by {
      hide Complete;
      assert forall p <- n.pushes :: p.0 != id;
    }
    assert Genuine(c, r) by {
      hide Complete, OneEach;
    }
    hide Genuine, OneEach;
    forall x <- r.finished | IsPushId(x) && Decode(c, Carried(r.arrived, x)).Ok?
      ensures PushIn(r.pushes, x, Decode(c, Carried(r.arrived, x)).value)
    {
      if x != id {
        PushStays(n.pushes, r.pushes, x, Decode(c, Carried(n.arrived, x)).value);
      } else {
        assert r.pushes[|n.pushes|] == (id, Decode(c, Carried(r.arrived, x)).value);
      }
    }
  }

  lemma PushStays(before: seq<(nat, Frame)>, after: seq<(nat, Frame)>, id: nat, f: Frame)
    requires before <= after && PushIn(before, id, f)
    ensures PushIn(after, id, f)
  {
    var i :| 0 <= i < |before| && before[i] == (id, f);
    assert after[i] == (id, f);
  }

  lemma OnePush(c: Codec, n: Client, whole: Client, id: nat)
    requires Numbered(n) && Linked(n) && whole.pushes == n.pushes && whole.pending == n.pending
    ensures var d, r := Decode(c, Carried(whole.arrived, id)), Deliver(c, whole, id, Carried(whole.arrived, id));
            && r.finished == whole.finished && r.arrived == whole.arrived
            && r.pushes == (if d.Ok? && id !in n.pending then n.pushes + [(id, d.value)] else n.pushes)
    ensures IsPushId(id) ==> id !in n.pending
  {
    hide Decode, Carried;
  }

  lemma {:induction false} RunKeeps(c: Codec, events: seq<Event>)
    ensures Inv(c, Run(c, events))
  {
    if events != [] {
      var n, e := Run(c, events[..|events| - 1]), events[|events| - 1];
      RunKeeps(c, events[..|events| - 1]);
      if e.Data? {
        NumberedData(c, n, e.stream, e.data, e.end);
        LinkedData(c, n, e.stream, e.data, e.end);
        BufferedData(c, n, e.stream, e.data, e.end);
        RepliedData(c, n, e.stream, e.data, e.end);
        PushedData(c, n, e.stream, e.data, e.end);
      } else {
        NumberedQuiet(c, n, e);
        LinkedQuiet(c, n, e);
        BufferedQuiet(c, n, e);
        RepliedQuiet(c, n, e);
        PushedQuiet(c, n, e);
      }
      hide After, AfterData, Numbered, Linked, Buffered, Replied, Pushed;
      StepIsData(c, n, e);
    }
  }

  lemma StepIsData(c: Codec, n: Client, e: Event)
    ensures e.Data? ==> After(c, n, e) == AfterData(c, n, e.stream, e.data, e.end)
  {
    hide AfterData;
  }

  // ----------------------------------------------------------------------------------------- theorems

  /** A request that has its reply got the whole of its own stream, however it was cut into pieces; and on a
      live connection a request that its caller has not given up has its reply exactly when its stream has
      ended and decodes: it never fails there, so what does not decode leaves it waiting.  When the
      connection ends nobody is left waiting, except for requests made after that. */
  lemma ReplyIsTheWholeStream(c: Codec, events: seq<Event>, i: nat)
    requires i < |Run(c, events).waiters|
    ensures var n := Run(c, events);
            var w := n.waiters[i];
            var whole := Carried(n.arrived, w.key.stream);
            && (w.fate.Got? ==> w.key.stream in n.finished && Decode(c, whole) == Ok(w.fate.reply))
            && (!n.terminated && !w.fate.Abandoned? ==>
                  && (w.fate.Got? <==> w.key.stream in n.finished && Decode(c, whole).Ok?)
                  && (w.fate.Waiting? <==> w.key.stream !in n.finished || !Decode(c, whole).Ok?))
            && (w.fate.Waiting? ==> n.terminated ==> w.key.late)
  {
    RunKeeps(c, events);
    assert ReplyOk(c, Run(c, events), Run(c, events).waiters[i]);
    hide Run, Decode;
  }

  /** The empty reply, which the server sends when its handler failed or has nothing to say, is such a case:
      the stream ends with nothing on it, and its request waits on until it is given up or the connection
      ends. */
  lemma EmptyReplyLeavesWaiting(c: Codec, events: seq<Event>, i: nat)
    requires i < |Run(c, events).waiters| && Run(c, events).waiters[i].fate.Waiting? && !Run(c, events).terminated
    requires Run(c, events).waiters[i].key.stream !in Run(c, events).arrived
    ensures var id := Run(c, events).waiters[i].key.stream;
            var n := Run(c, events + [Data(id, [], true)]);
            i < |n.waiters| && n.waiters[i].fate.Waiting? && id in n.finished && !n.terminated
  {
    var n, id := Run(c, events), Run(c, events).waiters[i].key.stream;
    var last := Data(id, [], true);
    RunKeeps(c, events);
    assert ReplyOk(c, n, n.waiters[i]);
    assert (events + [last])[..|events|] == events;
    assert Run(c, events + [last]) == After(c, n, last);
    assert Decode(c, []) == ValueError;
    hide Run, Decode;
    NotYetFinished(c, n, id);
  }

  lemma NotYetFinished(c: Codec, n: Client, id: nat)
    requires Inv(c, n) && id !in n.arrived && IsRequestId(id) && id < n.nextId && id !in n.relays
    ensures id !in n.finished ==> Impossible(n, id) == n.terminated
    ensures !n.terminated && id !in n.finished ==> Carried(n.buffers, id) == []
  {}

  /** Two requests never share a stream, so no reply answers two. */
  lemma OneStreamEach(c: Codec, events: seq<Event>, i: nat, j: nat)
    requires i < j < |Run(c, events).waiters|
    ensures Run(c, events).waiters[i].key.stream != Run(c, events).waiters[j].key.stream
  {
    RunKeeps(c, events);
    hide Run;
  }

  /** A push stream is handed over exactly once, when it has ended, as the decoding of all its bytes; or not
      at all if they do not decode. */
  lemma PushHandedOverOnce(c: Codec, events: seq<Event>, id: nat, f: Frame)
    requires IsPushId(id)
    ensures var n := Run(c, events);
            && ((id, f) in n.pushes <==> id in n.finished && Decode(c, Carried(n.arrived, id)) == Ok(f))
            && (forall i, j :: 0 <= i < j < |n.pushes| ==> n.pushes[i].0 != n.pushes[j].0)
  {
    RunKeeps(c, events);
    hide Run, Decode, Numbered, Linked, Buffered, Replied;
    var n := Run(c, events);
    if id in n.finished && Decode(c, Carried(n.arrived, id)) == Ok(f) {
      assert PushIn(n.pushes, id, f);
    }
  }

  // ----------------------------------------------------------------------- tables that are kept up to date

  /** A stream is routed to a relay while it is open, and an answered request is waited for no longer. */
  ghost predicate UpToDate(n: Client) {
    && (forall id <- n.relays :: id !in n.finished)
    && (forall i :: 0 <= i < |n.waiters| && n.waiters[i].fate.Got? ==> n.waiters[i].key.stream !in n.pending)
  }

  lemma UpToDateStep(c: Codec, n: Client, e: Event)
    requires UpToDate(n) && Numbered(n) && Linked(n)
    ensures UpToDate(After(c, n, e))
  {
    hide Decode;
  }

  lemma {:induction false} AlwaysUpToDate(c: Codec, events: seq<Event>)
    ensures UpToDate(Run(c, events))
  {
    if events != [] {
      var front := events[..|events| - 1];
      AlwaysUpToDate(c, front);
      RunKeeps(c, front);
      UpToDateStep(c, Run(c, front), events[|events| - 1]);
      hide After, UpToDate, Numbered, Linked;
    }
  }

  /** A pass-through stream that has been opened is routed exactly until its end, a reset of it or the end of the
      connection: nothing of it reaches the requests before, and its number is free for nothing else. */
  lemma {:induction false} RoutedUntilTheEnd(c: Codec, events: seq<Event>, more: seq<Event>)
    ensures var id := Run(c, events).nextId;
            var n := Run(c, events + [OpenStream] + more);
            id in n.relays <==> id !in n.finished && Terminated !in more
  {
    hide Run, After, Inv, UpToDate, Numbered;
    var id, all := Run(c, events).nextId, events + [OpenStream];
    RunMore(c, all, more);
    if more == [] {
      OpenedJustNow(c, events);
    } else {
      var front, last := more[..|more| - 1], more[|more| - 1];
      RoutedUntilTheEnd(c, events, front);
      NextGrows(c, events, front);
      AlwaysUpToDate(c, all + front);
      RunKeeps(c, all + front);
      InvNumbered(c, Run(c, all + front));
      RoutedStep(c, Run(c, all + front), last, id);
      assert Terminated in more <==> Terminated in front || last.Terminated? by {
        assert more == front + [last];
      }
    }
  }

  lemma InvNumbered(c: Codec, n: Client)
    requires Inv(c, n)
    ensures Numbered(n)
  {}

  lemma OpenedJustNow(c: Codec, events: seq<Event>)
    ensures var id, n := Run(c, events).nextId, Run(c, events + [OpenStream]);
            id in n.relays && id !in n.finished
  {
    assert (events + [OpenStream])[..|events|] == events;
    RunKeeps(c, events);
    NewStream(Run(c, events));
    hide Inv;
  }

  lemma NewStream(n: Client)
    requires Numbered(n)
    ensures n.nextId !in n.finished
  {}

  lemma {:induction false} NextGrows(c: Codec, events: seq<Event>, more: seq<Event>)
    ensures IsRequestId(Run(c, events).nextId)
    ensures Run(c, events).nextId < Run(c, events + [OpenStream] + more).nextId
  {
    var all := events + [OpenStream];
    RunKeeps(c, events);
    RunMore(c, events, [OpenStream]);
    assert [OpenStream][..0] == [] && events + [] == events;
    RunMore(c, all, more);
    if more != [] {
      NextGrows(c, events, more[..|more| - 1]);
      NextStays(c, Run(c, all + more[..|more| - 1]), more[|more| - 1]);
    }
    hide Run, Inv;
  }

  lemma NextStays(c: Codec, n: Client, e: Event)
    ensures n.nextId <= After(c, n, e).nextId
  {
    hide Decode;
  }

  lemma RoutedStep(c: Codec, n: Client, e: Event, id: nat)
    requires UpToDate(n) && Numbered(n) && IsRequestId(id) && id < n.nextId
    ensures var r := After(c, n, e);
            && (id in n.relays && !e.Terminated? ==> (id in r.relays <==> id !in r.finished))
            && (id !in n.relays ==> id !in r.relays)
            && (id in n.finished ==> id in r.finished)
            && (e.Terminated? ==> id !in r.relays)
  {
    hide Decode;
  }

  // ---------------------------------------------------------------------------- what arrived and ended

  /** The bytes that events brought on a stream while it could carry any. */
  function Brought(c: Codec, events: seq<Event>, id: nat): bytes {
    if events == [] then []
    else
      var front, e := events[..|events| - 1], events[|events| - 1];
      Brought(c, front, id) + if e.Data? && e.stream == id && !Impossible(Run(c, front), id) then e.data else []
  }

  /** The stream's end came, or a reset of a routed stream. */
  ghost predicate EndedIn(c: Codec, events: seq<Event>, id: nat) {
    events != [] &&
    var front, e := events[..|events| - 1], events[|events| - 1];
    || EndedIn(c, front, id)
    || (e.Data? && e.stream == id && e.end && !Impossible(Run(c, front), id))
    || (e.Reset? && e.stream == id && id in Run(c, front).relays)
  }

  lemma CarriesStep(c: Codec, n: Client, e: Event, id: nat)
    ensures var r := After(c, n, e);
            && Carried(r.arrived, id) ==
               Carried(n.arrived, id) + (if e.Data? && e.stream == id && !Impossible(n, id) then e.data else [])
            && (id in r.finished <==>
                  || id in n.finished || (e.Data? && e.stream == id && e.end && !Impossible(n, id))
                  || (e.Reset? && e.stream == id && id in n.relays))
  {
    hide Decode;
    assert Carried(n.arrived, id) + [] == Carried(n.arrived, id);
  }

  /** What a stream has carried is what its events brought, all of it and in order, and it has ended exactly if its
      end or a reset came. */
  lemma {:induction false} CarriedIsWhatCame(c: Codec, events: seq<Event>, id: nat)
    ensures Carried(Run(c, events).arrived, id) == Brought(c, events, id)
    ensures id in Run(c, events).finished <==> EndedIn(c, events, id)
  {
    hide After, Carried, Impossible;
    if events == [] {
      NothingCarried(c, id);
    } else {
      CarriedIsWhatCame(c, events[..|events| - 1], id);
      CarriesStep(c, Run(c, events[..|events| - 1]), events[|events| - 1], id);
    }
  }

  lemma NothingCarried(c: Codec, id: nat)
    ensures Carried(Run(c, []).arrived, id) == [] && id !in Run(c, []).finished
  {}

  /** Giving up takes effect on whoever still waits, and on nobody else. */
  lemma GiveUpExactlyOne(c: Codec, events: seq<Event>, w: nat)
    ensures var n, r := Run(c, events), Run(c, events + [GiveUp(w)]);
            && r.(waiters := n.waiters) == n && |r.waiters| == |n.waiters|
            && forall i :: 0 <= i < |n.waiters| ==>
                 r.waiters[i] == if i == w && n.waiters[i].fate.Waiting? then n.waiters[i].(fate := Abandoned)
                                 else n.waiters[i]
  {
    assert (events + [GiveUp(w)])[..|events|] == events;
  }

  /** The end of the connection leaves nobody waiting and nothing in the tables. */
  lemma EndLeavesNothing(c: Codec, events: seq<Event>)
    ensures var r := Run(c, events + [Terminated]);
            && r.terminated && r.pending == map[] && r.relays == {}
            && forall i :: 0 <= i < |r.waiters| ==> !r.waiters[i].fate.Waiting?
  {
    assert (events + [Terminated])[..|events|] == events;
    RunKeeps(c, events + [Terminated]);
    var r := Run(c, events + [Terminated]);
    assert r == After(c, Run(c, events), Terminated);
    hide Run;
  }

  /** A reset ends the routing of the stream it names, if it is a routed one, and does nothing else. */
  lemma ResetEndsOneRelay(c: Codec, events: seq<Event>, id: nat)
    ensures var n, r := Run(c, events), Run(c, events + [Reset(id)]);
            if id in n.relays then r == n.(relays := n.relays - {id}, finished := n.finished + {id}) else r == n
  {
    assert (events + [Reset(id)])[..|events|] == events;
  }
}
