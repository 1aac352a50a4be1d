/** The client end of the TCP tunnel: requests waiting for their replies on connections that come and go.
    Connections and waiters are numbered in the order they were made. */
module TcpCorrelation {
  import opened Prelude
  import opened Protocol
  import opened TcpFraming
  import opened Waiters

  /** Where a reply would come from: the connection, the id, and how many messages the connection had delivered
      when the request was made. */
  datatype Place = Place(conn: nat, id: nat, since: nat)

  /** A reply, and which message of its connection it is. */
  datatype Reply = Reply(frame: Frame, at: nat)

  type Asked = Waiter<Place, Reply>

  /** input is everything that arrived, buffer what is not read yet, seen the messages read. */
  datatype Conn = Conn(pending: map<nat, nat>, nextId: nat, closed: bool, reading: bool,
                       input: bytes, buffer: bytes, seen: seq<Message>)

  /** A push, with the connection it came on and which message of it. */
  datatype OneWay = OneWay(conn: nat, at: nat, frame: Frame)

  datatype Net = Net(conns: seq<Conn>, current: Option<nat>, waiters: seq<Asked>, pushes: seq<OneWay>)

  datatype Event =
    | Connected            // a connection attempt succeeded
    | Request              // a request, once connected
    | Chunk(conn: nat, data: bytes)
    | Lost(conn: nat)      // end of file or an error while reading
    | GiveUp(waiter: nat)
    | Migrate              // the old connection goes; Connected follows if the new one is made
    | Close

  function Initial(): Net { Net([], None, [], []) }

  predicate IsConnected(n: Net) {
    n.current.Some? && n.current.value < |n.conns| && !n.conns[n.current.value].closed
  }

  /** Connection.fail: nobody is left waiting on it. */
  function Fail(n: Net, k: nat): Net {
    if k >= |n.conns| then n
    else n.(conns := n.conns[k := n.conns[k].(pending := map[], closed := true)],
            waiters := FailAll(n.waiters, n.conns[k].pending.Values))
  }

  function StopReading(n: Net, k: nat): Net {
    if k >= |n.conns| then n else n.(conns := n.conns[k := n.conns[k].(reading := false)])
  }

  function AfterRequest(n: Net): Net {
    if !IsConnected(n) then n
    else
      var k := n.current.value;
      var conn := n.conns[k];
      n.(conns := n.conns[k := conn.(pending := conn.pending[conn.nextId := |n.waiters|], nextId := conn.nextId + 1)],
         waiters := n.waiters + [Waiter(Place(k, conn.nextId, |conn.seen|), Waiting)])
  }

  /** A decoded message of connection k: the reply somebody waits for, or a push. */
  function Deliver(n: Net, k: nat, id: nat, f: Frame): Net
    requires k < |n.conns| && n.conns[k].seen != []
  {
    var conn := n.conns[k];
    if id in conn.pending then
      var w := conn.pending[id];
      var n1 := n.(conns := n.conns[k := conn.(pending := conn.pending - {id})]);
      if w < |n.waiters| && n.waiters[w].fate.Waiting?
      then n1.(waiters := n.waiters[w := n.waiters[w].(fate := Got(Reply(f, |conn.seen| - 1)))])
      else n1
    else if id == ONEWAY then n.(pushes := n.pushes + [OneWay(k, |conn.seen| - 1, f)])
    else n
  }

  /** The next message is out of the buffer. */
  function Taken(n: Net, k: nat): Net
    requires k < |n.conns| && Arrived(n.conns[k].buffer)
  {
    var x := n.conns[k];
    n.(conns := n.conns[k := x.(buffer := x.buffer[PayloadEnd(x.buffer)..], seen := x.seen + [FirstMessage(x.buffer)])])
  }

  /** One turn of the read loop: the next message, which ends the connection if it does not decode. */
  function AfterMessage(c: Codec, n: Net, k: nat): Net
    requires k < |n.conns| && Arrived(n.conns[k].buffer)
  {
    var m := FirstMessage(n.conns[k].buffer);
    match Decode(c, m.payload)
    case Ok(f) => Deliver(Taken(n, k), k, m.id, f)
    case _ => Fail(StopReading(Taken(n, k), k), k)
  }

  lemma MessageShrinks(c: Codec, n: Net, k: nat)
    requires k < |n.conns| && Arrived(n.conns[k].buffer)
    ensures |AfterMessage(c, n, k).conns| == |n.conns|
    ensures AfterMessage(c, n, k).conns[k].buffer == n.conns[k].buffer[PayloadEnd(n.conns[k].buffer)..]
    ensures |AfterMessage(c, n, k).conns[k].buffer| < |n.conns[k].buffer|
  {}

  function Drain(c: Codec, n: Net, k: nat): Net
    requires k < |n.conns|
    decreases |n.conns[k].buffer|
  {
    if !n.conns[k].reading || !Arrived(n.conns[k].buffer) then n
    else
      MessageShrinks(c, n, k);
      Drain(c, AfterMessage(c, n, k), k)
  }

  function Buffered(n: Net, k: nat, data: bytes): Net
    requires k < |n.conns|
  {
    n.(conns := n.conns[k := n.conns[k].(input := n.conns[k].input + data, buffer := n.conns[k].buffer + data)])
  }

  function After(c: Codec, n: Net, e: Event): Net {
    match e
    case Connected => n.(conns := n.conns + [Conn(map[], 1, false, true, [], [], [])], current := Some(|n.conns|))
    case Request => AfterRequest(n)
    case Chunk(k, data) => if k < |n.conns| && n.conns[k].reading then Drain(c, Buffered(n, k, data), k) else n
    case Lost(k) => Fail(StopReading(n, k), k)
    case GiveUp(w) =>
      if w < |n.waiters| && n.waiters[w].fate.Waiting?
      then n.(waiters := n.waiters[w := n.waiters[w].(fate := Abandoned)]) else n
    case Migrate => if n.current.Some? then Fail(n, n.current.value) else n
    case Close => (if n.current.Some? then Fail(n, n.current.value) else n).(current := None)
  }

  function Run(c: Codec, events: seq<Event>): Net {
    if events == [] then Initial() else After(c, Run(c, events[..|events| - 1]), events[|events| - 1])
  }

  // ------------------------------------------------------------------------------------- the class

  class TcpClient {
    const codec: Codec
    var conns: seq<Conn>
    var current: Option<nat>
    var waiters: seq<Asked>
    var pushes: seq<OneWay>

    ghost function Value(): Net
      reads this
    {
      Net(conns, current, waiters, pushes)
    }

    constructor (codec: Codec)
      ensures this.codec == codec && Value() == Initial()
    {
      this.codec := codec;
      conns, current, waiters, pushes := [], None, [], [];
    }

    method Connect()
      modifies this
      ensures Value() == After(codec, old(Value()), Connected)
    {
      current := Some(|conns|);
      conns := conns + [Conn(map[], 1, false, true, [], [], [])];
    }

    method FailConn(k: nat)
      requires k < |conns|
      modifies this`conns, this`waiters
      ensures Value() == Fail(old(Value()), k)
    {
      conns := conns[k := conns[k].(closed := true)];
      waiters := FailThem(waiters, conns[k].pending.Values);
      conns := conns[k := conns[k].(pending := map[])];
    }

    /** Registers a waiter under the next id of the current connection. */
    method MakeRequest() returns (w: Option<nat>)
      modifies this
      ensures Value() == AfterRequest(old(Value()))
      ensures w == if IsConnected(old(Value())) then Some(|old(waiters)|) else None
    {
      if current.None? || current.value >= |conns| || conns[current.value].closed {
        return None;
      }
      var k := current.value;
      var id := conns[k].nextId;
      w := Some(|waiters|);
      waiters := waiters + [Waiter(Place(k, id, |conns[k].seen|), Waiting)];
      conns := conns[k := conns[k].(pending := conns[k].pending[id := w.value], nextId := id + 1)];
    }

    method GiveUpOn(w: nat)
      modifies this`waiters
      ensures Value() == After(codec, old(Value()), GiveUp(w))
    {
      if w < |waiters| && waiters[w].fate.Waiting? {
        waiters := waiters[w := waiters[w].(fate := Abandoned)];
      }
    }

    /** The read loop of connection k, as far as the bytes that have arrived allow. */
    method Receive(k: nat, data: bytes)
      requires k < |conns| && conns[k].reading
      modifies this
      ensures Value() == After(codec, old(Value()), Chunk(k, data))
    {
      hide Decode, Deliver, Fail, PayloadEnd, FirstMessage;
      conns := conns[k := conns[k].(input := conns[k].input + data, buffer := conns[k].buffer + data)];
      while conns[k].reading && Arrived(conns[k].buffer)
        invariant k < |conns|
        invariant Drain(codec, Value(), k) == After(codec, old(Value()), Chunk(k, data))
        decreases |conns[k].buffer|
      {
        MessageShrinks(codec, Value(), k);
        ReadMessage(k);
      }
    }

    method ReadMessage(k: nat)
      requires k < |conns| && Arrived(conns[k].buffer)
      modifies this
      ensures Value() == AfterMessage(codec, old(Value()), k)
    {
      var conn := conns[k];
      var m := FirstMessage(conn.buffer);
      conns := conns[k := conn.(buffer := conn.buffer[PayloadEnd(conn.buffer)..], seen := conn.seen + [m])];
      hide PayloadEnd, FirstMessage;
      match Decode(codec, m.payload) {
        case Ok(f) =>
          Handle(k, m.id, f);
        case _ =>
          conns := conns[k := conns[k].(reading := false)];
          FailConn(k);
      }
    }

    method Handle(k: nat, id: nat, f: Frame)
      requires k < |conns| && conns[k].seen != []
      modifies this
      ensures Value() == Deliver(old(Value()), k, id, f)
    {
      if id in conns[k].pending {
        var w := conns[k].pending[id];
        conns := conns[k := conns[k].(pending := conns[k].pending - {id})];
        if w < |waiters| && waiters[w].fate.Waiting? {
          waiters := waiters[w := waiters[w].(fate := Got(Reply(f, |conns[k].seen| - 1)))];
        }
      } else if id == ONEWAY {
        pushes := pushes + [OneWay(k, |conns[k].seen| - 1, f)];
      }
    }

    method ConnectionLost(k: nat)
      requires k < |conns|
      modifies this
      ensures Value() == After(codec, old(Value()), Lost(k))
    {
      conns := conns[k := conns[k].(reading := false)];
      FailConn(k);
    }

    /** No migration in TCP: the connection is dropped, and a new one made from the new address. */
    method MoveTo(connects: bool)
      requires current.Some? ==> current.value < |conns|
      modifies this
      ensures var dropped := After(codec, old(Value()), Migrate);
              Value() == if connects then After(codec, dropped, Connected) else dropped
    {
      if current.Some? {
        FailConn(current.value);
      }
      if connects {
        Connect();
      }
    }

    method Shut()
      requires current.Some? ==> current.value < |conns|
      modifies this
      ensures Value() == After(codec, old(Value()), Close)
    {
      if current.Some? {
        FailConn(current.value);
      }
      current := None;
    }
  }
}
