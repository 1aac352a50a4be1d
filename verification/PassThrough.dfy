/** HTTPS pass-through end to end: browser, client proxy, QUIC stream, server proxy and site, stepping
    in any order.  One step is what runs between two awaits.  The QUIC stream is ordered and reliable
    until one end resets it or a connection ends; which bytes arrive when, and in which chunks, is open. */
module PassThrough {
  import opened Prelude
  import opened Protocol
  import opened QuicStreams
  import opened ServerDemux

  const PIPE_CHUNK := 65536
  const STATUS := "status"
  const STATUS_OK := JNum(200, 0)

  /** The three header-only frames of a pass-through stream, as bytes. */
  datatype Setup = Setup(c: Codec, connect: bytes, accepted: bytes, refused: bytes)

  /** w is one frame header and nothing more. */
  ghost predicate HeaderOnly(c: Codec, w: bytes) {
    HeaderArrived(w) && HeaderEnd(w) == |w| && SplitHead(c, w).Complete?
  }

  predicate Accepts(f: Frame) {
    STATUS in f.headers && f.headers[STATUS] == STATUS_OK
  }

  ghost predicate ValidSetup(p: Setup) {
    && HeaderOnly(p.c, p.connect) && SplitHead(p.c, p.connect).frame.kind.Connect?
    && HeaderOnly(p.c, p.accepted) && Accepts(SplitHead(p.c, p.accepted).frame)
    && HeaderOnly(p.c, p.refused) && !Accepts(SplitHead(p.c, p.refused).frame)
  }

  /** One direction, from a TCP connection through the tunnel into the other TCP connection. */
  datatype Side = Side(
    source: bytes, ended: bool,     // what the sending program has sent, and whether it has finished
    taken: nat,                     // of it, copied onto the stream
    arrived: nat, over: bool,       // stream bytes delivered to the other end; nothing more will be
    cut: Option<nat>,               // how many were there when a failure first ended this direction
    got: bytes, sawEnd: bool)       // what the receiving program was given

  /** Opening(buf): open_stream has read buf and waits for the rest of the reply header.  Failed: it
      raised.  Stopped: the copy loops ran and one of them failed. */
  datatype ClientPhase = Opening(buf: bytes) | Copying | Failed | Stopped

  datatype ServerPhase = Waiting | Relaying | Refused | Halted

  datatype World = World(
    up: Side,                       // browser to site
    down: Side,                     // site to browser
    client: ClientPhase,
    near: StreamVal,                // the client's end of the stream
    server: ServerPhase,
    far: StreamView)                // what the server knows of the stream

  const IDLE := Side([], false, 0, 0, false, None, [], false)

  /** open_stream has just written the CONNECT header. */
  function Start(p: Setup): World {
    World(IDLE, IDLE, Opening([]), FRESH.(sent := p.connect), Waiting, UNSEEN)
  }

  datatype Event =
    | BrowserSends(data: bytes) | BrowserEnds
    | SiteSends(data: bytes) | SiteEnds
    | ClientReads | ClientWrites(n: nat) | ClientEnds | ClientAborts | ClientTimesOut
    | ServerConnects(ok: bool) | ServerReads | ServerWrites(n: nat) | ServerEnds | ServerAborts
    | DeliverUp(n: nat, end: bool) | BreakUp
    | DeliverDown(n: nat, end: bool) | BreakDown

  function Grow(s: Side, data: bytes): Side {
    if s.ended then s else s.(source := s.source + data)
  }

  /** One round of a loop that copies out of the tunnel. */
  function Give(s: Side, data: bytes): Side {
    if data == [] then s.(sawEnd := true) else s.(got := s.got + data)
  }

  /** A reset, an abort or a lost connection ends a direction whose own end has not arrived. */
  function Cut(s: Side): Side {
    if s.over || s.cut.Some? then s else s.(cut := Some(s.arrived))
  }

  // ------------------------------------------------------------------------------------ client steps

  predicate Started(client: ClientPhase) { client.Copying? || client.Stopped? }

  /** pipe's except clause, or open_stream's refusal.  The other copy loop is not cancelled: it may go on
      reading what the queue holds, but can send no more. */
  function ClientAbort(w: World): World {
    w.(near := Fail(w.near), down := Cut(w.down), client := if Started(w.client) then Stopped else Failed)
  }

  /** open_stream's loop until the reply header is complete, then from_tunnel. */
  function ClientRead(p: Setup, w: World): World {
    if !Readable(w.near) then w
    else
      var data, w1 := ReadResult(w.near), w.(near := AfterRead(w.near));
      if w.client.Opening? then OpeningRead(p, w1, w.client.buf + data, data == [])
      else if Started(w.client) && !w.down.sawEnd then w1.(down := Give(w.down, data))
      else w
  }

  function OpeningRead(p: Setup, w: World, buf: bytes, over: bool): World {
    if over then w.(client := Failed)
    else match SplitHead(p.c, buf) {
      case Incomplete => w.(client := Opening(buf))
      case Bad(_) => w.(client := Failed)
      case Complete(reply, rest) =>
        if Accepts(reply) then w.(near := Unread(w.near, rest), client := Copying)
        else ClientAbort(w)
    }
  }

  /** to_tunnel: n more bytes of what the browser sent, or its end. */
  function ClientSend(w: World, n: nat, end: bool): World
    requires w.up.taken + n <= |w.up.source|
  {
    match Send(w.near, w.up.source[w.up.taken..w.up.taken + n], end) {
      case None => ClientAbort(w)
      case Some(s) => w.(near := s, up := w.up.(taken := w.up.taken + n))
    }
  }

  predicate MayCopy(s: Side, n: nat) { 0 < n <= PIPE_CHUNK && s.taken + n <= |s.source| }

  predicate MayFinish(s: Side) { s.ended && s.taken == |s.source| }

  // ------------------------------------------------------------------------------------ server steps

  predicate Answered(server: ServerPhase) { server.Relaying? || server.Halted? }

  function SetRelay(w: World, s: StreamVal): World {
    w.(far := w.far.(relay := Some(s)))
  }

  /** The connect task answers with the status, then relays if the site could be reached. */
  function ServerConnect(p: Setup, w: World, ok: bool): World {
    if !w.server.Waiting? || w.far.relay.None? then w
    else match Send(w.far.relay.value, if ok then p.accepted else p.refused, false) {
      case None => w.(server := Refused)
      case Some(s) => SetRelay(w, s.(fin := !ok)).(server := if ok then Relaying else Refused)
    }
  }

  function ServerRead(w: World): World {
    if !Answered(w.server) || w.up.sawEnd || w.far.relay.None? || !Readable(w.far.relay.value) then w
    else SetRelay(w, AfterRead(w.far.relay.value)).(up := Give(w.up, ReadResult(w.far.relay.value)))
  }

  function ServerAbort(w: World): World {
    if !w.server.Relaying? || w.far.relay.None? then w
    else SetRelay(w, Fail(w.far.relay.value)).(server := Halted, up := Cut(w.up))
  }

  function ServerSend(w: World, n: nat, end: bool): World
    requires w.far.relay.Some? && w.down.taken + n <= |w.down.source|
  {
    match Send(w.far.relay.value, w.down.source[w.down.taken..w.down.taken + n], end) {
      case None => ServerAbort(w)
      case Some(s) => SetRelay(w, s).(down := w.down.(taken := w.down.taken + n))
    }
  }

  // ----------------------------------------------------------------------------------- the QUIC stream

  function DownSent(far: StreamView): bytes { if far.relay.Some? then far.relay.value.sent else [] }

  predicate DownFin(far: StreamView) { far.relay.Some? && far.relay.value.fin }

  predicate ServerMaySend(w: World) { w.server.Relaying? && w.far.relay.Some? && !DownFin(w.far) }

  /** The next n bytes may arrive, the end of stream only behind the last byte. */
  predicate MayArrive(s: Side, sent: bytes, fin: bool, n: nat, end: bool) {
    !s.over && s.arrived + n <= |sent| && (end ==> fin && s.arrived + n == |sent|)
  }

  function Arrive(s: Side, n: nat, end: bool): Side {
    s.(arrived := s.arrived + n, over := end)
  }

  function Next(p: Setup, w: World, e: Event): World {
    match e {
      case BrowserSends(data) => w.(up := Grow(w.up, data))
      case BrowserEnds => w.(up := w.up.(ended := true))
      case SiteSends(data) => w.(down := Grow(w.down, data))
      case SiteEnds => w.(down := w.down.(ended := true))
      case ClientReads => ClientRead(p, w)
      case ClientWrites(n) =>
        if w.client.Copying? && !w.near.fin && MayCopy(w.up, n) then ClientSend(w, n, false) else w
      case ClientEnds => if w.client.Copying? && !w.near.fin && MayFinish(w.up) then ClientSend(w, 0, true) else w
      case ClientAborts => if Started(w.client) then ClientAbort(w) else w
      case ClientTimesOut => if w.client.Opening? then w.(client := Failed) else w
      case ServerConnects(ok) => ServerConnect(p, w, ok)
      case ServerReads => ServerRead(w)
      case ServerWrites(n) =>
        if ServerMaySend(w) && MayCopy(w.down, n) then ServerSend(w, n, false) else w
      case ServerEnds =>
        if ServerMaySend(w) && MayFinish(w.down) then ServerSend(w, 0, true) else w
      case ServerAborts => ServerAbort(w)
      case DeliverUp(n, end) =>
        if !MayArrive(w.up, w.near.sent, w.near.fin, n, end) then w
        else w.(far := StepData(p.c, true, true, w.far, w.near.sent[w.up.arrived..w.up.arrived + n], end),
                up := Arrive(w.up, n, end))
      case BreakUp => w.(far := Step(p.c, true, true, w.far, Reset), up := Cut(w.up).(over := true))
      case DeliverDown(n, end) =>
        if !MayArrive(w.down, DownSent(w.far), DownFin(w.far), n, end) then w
        else w.(near := Feed(w.near, DownSent(w.far)[w.down.arrived..w.down.arrived + n], end),
                down := Arrive(w.down, n, end))
      case BreakDown =>
        if w.down.over then w // its end has arrived: no longer in the routing table
        else w.(near := Fail(w.near), down := Cut(w.down).(over := true))
    }
  }

  function Run(p: Setup, es: seq<Event>): World {
    if es == [] then Start(p) else Next(p, Run(p, es[..|es| - 1]), es[|es| - 1])
  }

  // --------------------------------------------------------------------------------------- invariants

  /** How far into the stream a reader can ever get. */
  function Reach(d: Side): nat { if d.cut.Some? then d.cut.value else d.arrived }

  /** What a reader can ever take is exactly what was delivered of the stream behind position `from`, up to
      the cut if there was one; the end shows exactly when the stream is through or was cut. */
  ghost predicate Faithful(s: StreamVal, sent: bytes, from: nat, d: Side) {
    && from <= Reach(d) <= d.arrived <= |sent|
    && Total(s) == sent[from..Reach(d)]
    && (Ended(s) <==> d.over || d.cut.Some?)
  }

  /** A sender has put a header and then the first `taken` bytes of its source on the stream. */
  ghost predicate Sent(header: bytes, d: Side, sent: bytes, fin: bool) {
    && d.taken <= |d.source|
    && sent == header + d.source[..d.taken]
    && (fin ==> d.ended && d.taken == |d.source|)
  }

  ghost predicate Delivered(d: Side, sent: bytes, fin: bool) {
    d.arrived <= |sent| && (d.over && d.cut.None? ==> fin && d.arrived == |sent|)
  }

  /** Before the header is complete the server gathers it; afterwards it relays what is behind it. */
  ghost predicate FarOk(p: Setup, u: Side, sent: bytes, far: StreamView) {
    if far.relay.None? then
      && !far.routed && !far.framed && far.actions == []
      && u.arrived < |p.connect| && u.arrived <= |sent| && (u.cut.Some? ==> u.over)
      && (far.buffer.Some? ==> far.buffer.value == sent[..u.arrived])
      && (far.buffer.None? ==> u.arrived == 0)
    else
      && far.buffer.None? && !far.framed && (far.routed <==> !u.over)
      && SplitHead(p.c, p.connect).Complete?
      && far.actions == [Open(SplitHead(p.c, p.connect).frame)]
      && Faithful(far.relay.value, sent, |p.connect|, u)
  }

  /** The site has what the relay's reader took. */
  ghost predicate SiteOk(relay: Option<StreamVal>, u: Side) {
    if relay.None? then u.got == [] && !u.sawEnd
    else relay.value.got == u.got && (u.sawEnd ==> Pending(relay.value) == [] && Ended(relay.value))
  }

  ghost predicate Up(p: Setup, u: Side, sent: bytes, fin: bool, far: StreamView) {
    Sent(p.connect, u, sent, fin) && Delivered(u, sent, fin) && FarOk(p, u, sent, far) && SiteOk(far.relay, u)
  }

  ghost predicate ReplyOk(p: Setup, server: ServerPhase, d: Side, sent: bytes, fin: bool) {
    if server.Waiting? then sent == [] && !fin
    else if server.Refused? then sent <= p.refused
    else Sent(p.accepted, d, sent, fin)
  }

  /** The browser has what the client's reader took behind the reply header. */
  ghost predicate BrowserOk(p: Setup, client: ClientPhase, near: StreamVal, d: Side) {
    && (client.Opening? ==> near.got == client.buf && !HeaderArrived(client.buf))
    && (if Started(client) then near.got == p.accepted + d.got else d.got == [] && !d.sawEnd)
    && (d.sawEnd ==> Pending(near) == [] && Ended(near))
  }

  ghost predicate Down(p: Setup, d: Side, server: ServerPhase, sent: bytes, fin: bool, client: ClientPhase,
                       near: StreamVal)
  {
    && ReplyOk(p, server, d, sent, fin) && Delivered(d, sent, fin)
    && Faithful(near, sent, 0, d) && BrowserOk(p, client, near, d)
  }

  /** Who may have started what: nothing goes up behind the header before the server has answered. */
  ghost predicate Order(w: World) {
    && (Started(w.client) ==> Answered(w.server))
    && (!w.server.Waiting? ==> w.far.relay.Some?)
    && (!Started(w.client) ==> w.up.taken == 0 && !w.near.fin)
    && (!Answered(w.server) ==> w.down.taken == 0)
  }

  ghost predicate Inv(p: Setup, w: World) {
    && Order(w)
    && Up(p, w.up, w.near.sent, w.near.fin, w.far)
    && Down(p, w.down, w.server, DownSent(w.far), DownFin(w.far), w.client, w.near)
  }

  // ------------------------------------------------------------------------- what each part rests on

  /** Any prefix of a stream that starts with a header-only frame: the header is there exactly when all
      its bytes are, and then it reads as the frame, with the raw bytes behind it. */
  lemma HeaderOnlyPrefix(c: Codec, header: bytes, x: bytes, sent: bytes)
    requires HeaderOnly(c, header) && x <= sent && header <= sent
    ensures HeaderArrived(x) <==> |x| >= |header|
    ensures |x| >= |header| ==>
              SplitHead(c, x) == Complete(SplitHead(c, header).frame, x[|header|..])
  {
    if |x| >= |header| {
      assert x == header + x[|header|..];
      SplitHeadExtends(c, header, x[|header|..]);
      assert SplitHead(c, header).rest == [];
    } else if |x| >= LEN_SIZE {
      assert x[..LEN_SIZE] == header[..LEN_SIZE];
    }
  }

  lemma FaithfulFeed(s: StreamVal, sent: bytes, from: nat, d: Side, n: nat, end: bool)
    requires !d.over && d.arrived + n <= |sent|
    requires Faithful(s, sent, from, d)
    ensures Faithful(Feed(s, sent[d.arrived..d.arrived + n], end), sent, from, Arrive(d, n, end))
  {
    hide Feed, Total, Ended;
    FeedTotal(s, sent[d.arrived..d.arrived + n], end);
    assert sent[from..d.arrived] + sent[d.arrived..d.arrived + n] == sent[from..d.arrived + n];
  }

  lemma FaithfulFail(s: StreamVal, sent: bytes, from: nat, d: Side)
    requires Faithful(s, sent, from, d)
    ensures Faithful(Fail(s), sent, from, Cut(d)) && Faithful(Fail(s), sent, from, Cut(d).(over := true))
  {
    FailTotal(s);
  }

  lemma FailKeepsRest(s: StreamVal)
    ensures Fail(s).sent == s.sent && Fail(s).fin == s.fin && Fail(s).got == s.got
    ensures Pending(s) == [] && Ended(s) ==> Pending(Fail(s)) == [] && Ended(Fail(s))
  {
    FailTotal(s);
    if Pending(s) == [] {
      assert |Total(Fail(s))| == |s.got| + |Pending(Fail(s))|;
    }
  }

  lemma FeedKeepsRest(s: StreamVal, data: bytes, end: bool)
    ensures Feed(s, data, end).sent == s.sent && Feed(s, data, end).fin == s.fin && Feed(s, data, end).got == s.got
    ensures Pending(s) == [] && Ended(s) ==> Pending(Feed(s, data, end)) == [] && Ended(Feed(s, data, end))
  {
    FeedTotal(s, data, end);
    if Pending(s) == [] {
      assert |Total(Feed(s, data, end))| == |s.got| + |Pending(Feed(s, data, end))|;
    }
  }

  lemma FaithfulSentMore(s: StreamVal, sent: bytes, more: bytes, from: nat, d: Side)
    requires Faithful(s, sent, from, d)
    ensures Faithful(s, sent + more, from, d)
  {
    assert (sent + more)[from..Reach(d)] == sent[from..Reach(d)];
  }

  lemma FaithfulSender(s: StreamVal, t: StreamVal, sent: bytes, from: nat, d: Side)
    requires Faithful(s, sent, from, d) && t == s.(sent := t.sent, fin := t.fin)
    ensures Faithful(t, sent, from, d) && Pending(t) == Pending(s) && (Ended(t) <==> Ended(s))
  {}

  lemma SentMore(header: bytes, d: Side, sent: bytes, n: nat, end: bool)
    requires Sent(header, d, sent, false) && d.taken + n <= |d.source|
    requires end ==> d.ended && d.taken + n == |d.source|
    ensures Sent(header, d.(taken := d.taken + n), sent + d.source[d.taken..d.taken + n], end)
  {
    assert d.source[..d.taken] + d.source[d.taken..d.taken + n] == d.source[..d.taken + n];
  }

  lemma SourceGrows(header: bytes, d: Side, sent: bytes, fin: bool, data: bytes)
    requires Sent(header, d, sent, fin)
    ensures Sent(header, Grow(d, data), sent, fin) && Sent(header, d.(ended := true), sent, fin)
  {
    assert (d.source + data)[..d.taken] == d.source[..d.taken];
  }

  // ---------------------------------------------------------------------- upward, whoever takes the step

  lemma UpGrows(p: Setup, u: Side, sent: bytes, fin: bool, far: StreamView, data: bytes)
    requires Up(p, u, sent, fin, far)
    ensures Up(p, Grow(u, data), sent, fin, far) && Up(p, u.(ended := true), sent, fin, far)
  {
    SourceGrows(p.connect, u, sent, fin, data);
  }

  lemma UpSends(p: Setup, u: Side, sent: bytes, far: StreamView, n: nat, end: bool)
    requires Up(p, u, sent, false, far) && u.taken + n <= |u.source|
    requires end ==> u.ended && u.taken + n == |u.source|
    ensures Up(p, u.(taken := u.taken + n), sent + u.source[u.taken..u.taken + n], end, far)
  {
    var more := u.source[u.taken..u.taken + n];
    SentMore(p.connect, u, sent, n, end);
    if far.relay.Some? {
      FaithfulSentMore(far.relay.value, sent, more, |p.connect|, u);
    } else {
      assert (sent + more)[..u.arrived] == sent[..u.arrived];
    }
  }

  lemma UpArrives(p: Setup, u: Side, sent: bytes, fin: bool, far: StreamView, n: nat, end: bool)
    requires ValidSetup(p) && Up(p, u, sent, fin, far) && MayArrive(u, sent, fin, n, end)
    requires far.relay.None? ==> u.taken == 0 && !fin
    ensures Up(p, Arrive(u, n, end), sent, fin, StepData(p.c, true, true, far, sent[u.arrived..u.arrived + n], end))
  {
    if far.relay.Some? {
      FaithfulFeed(far.relay.value, sent, |p.connect|, u, n, end);
      FeedKeepsRest(far.relay.value, sent[u.arrived..u.arrived + n], end);
    } else {
      assert p.connect + u.source[..0] == p.connect;
      Gathers(p, u, far, n);
      UpGathers(p, u, far, n);
    }
  }

  /** Gathering the CONNECT header: the relay opens with its last byte, and nothing is behind it. */
  lemma Gathers(p: Setup, u: Side, far: StreamView, n: nat)
    requires ValidSetup(p) && FarOk(p, u, p.connect, far) && far.relay.None? && u.arrived + n <= |p.connect|
    ensures StepData(p.c, true, true, far, p.connect[u.arrived..u.arrived + n], false) ==
      if u.arrived + n < |p.connect| then far.(buffer := Some(p.connect[..u.arrived + n]))
      else far.(buffer := None, routed := true, relay := Some(FRESH),
                actions := [Open(SplitHead(p.c, p.connect).frame)])
  {
    var data := p.connect[u.arrived..u.arrived + n];
    var buf := p.connect[..u.arrived] + data;
    assert buf == p.connect[..u.arrived + n];
    assert (if far.buffer.Some? then far.buffer.value else []) + data == buf;
    HeaderOnlyPrefix(p.c, p.connect, buf, p.connect);
  }

  lemma UpGathers(p: Setup, u: Side, far: StreamView, n: nat)
    requires ValidSetup(p) && far.relay.None? && u.arrived + n <= |p.connect| && !u.over
    requires Up(p, u, p.connect, false, far)
    ensures Up(p, Arrive(u, n, false), p.connect, false,
               if u.arrived + n < |p.connect| then far.(buffer := Some(p.connect[..u.arrived + n]))
               else far.(buffer := None, routed := true, relay := Some(FRESH),
                         actions := [Open(SplitHead(p.c, p.connect).frame)]))
  {}

  lemma UpBreaks(p: Setup, u: Side, sent: bytes, fin: bool, far: StreamView)
    requires Up(p, u, sent, fin, far)
    ensures Up(p, Cut(u).(over := true), sent, fin, Step(p.c, true, true, far, Reset))
    ensures far.relay.Some? ==> Up(p, Cut(u), sent, fin, far.(relay := Some(Fail(far.relay.value))))
  {
    if far.relay.Some? {
      FaithfulFail(far.relay.value, sent, |p.connect|, u);
      FailKeepsRest(far.relay.value);
    }
  }

  lemma UpRead(p: Setup, u: Side, sent: bytes, fin: bool, far: StreamView)
    requires Up(p, u, sent, fin, far) && far.relay.Some? && Readable(far.relay.value) && !u.sawEnd
    ensures Up(p, Give(u, ReadResult(far.relay.value)), sent, fin, far.(relay := Some(AfterRead(far.relay.value))))
  {
    ReadTotal(far.relay.value);
  }

  /** What the server sends down does not touch what comes up. */
  lemma UpSender(p: Setup, u: Side, sent: bytes, fin: bool, far: StreamView, t: StreamVal)
    requires Up(p, u, sent, fin, far) && far.relay.Some?
    requires t == far.relay.value.(sent := t.sent, fin := t.fin)
    ensures Up(p, u, sent, fin, far.(relay := Some(t)))
  {
    FaithfulSender(far.relay.value, t, sent, |p.connect|, u);
  }

  // -------------------------------------------------------------------- downward, whoever takes the step

  lemma DownGrows(p: Setup, d: Side, server: ServerPhase, sent: bytes, fin: bool, client: ClientPhase,
                  near: StreamVal, data: bytes)
    requires Down(p, d, server, sent, fin, client, near)
    ensures Down(p, Grow(d, data), server, sent, fin, client, near)
    ensures Down(p, d.(ended := true), server, sent, fin, client, near)
  {
    if Answered(server) {
      SourceGrows(p.accepted, d, sent, fin, data);
    }
  }

  lemma DownAnswers(p: Setup, d: Side, client: ClientPhase, near: StreamVal, ok: bool)
    requires Down(p, d, Waiting, [], false, client, near) && d.taken == 0
    ensures Down(p, d, if ok then Relaying else Refused, if ok then p.accepted else p.refused, !ok, client, near)
    ensures Down(p, d, Refused, [], false, client, near)
  {
    var reply := if ok then p.accepted else p.refused;
    FaithfulSentMore(near, [], reply, 0, d);
    assert [] + reply == reply;
    assert p.accepted + d.source[..0] == p.accepted;
  }

  lemma DownSends(p: Setup, d: Side, sent: bytes, client: ClientPhase, near: StreamVal, n: nat, end: bool)
    requires Down(p, d, Relaying, sent, false, client, near) && d.taken + n <= |d.source|
    requires end ==> d.ended && d.taken + n == |d.source|
    ensures Down(p, d.(taken := d.taken + n), Relaying, sent + d.source[d.taken..d.taken + n], end, client, near)
  {
    SentMore(p.accepted, d, sent, n, end);
    FaithfulSentMore(near, sent, d.source[d.taken..d.taken + n], 0, d);
  }

  lemma DownArrives(p: Setup, d: Side, server: ServerPhase, sent: bytes, fin: bool, client: ClientPhase,
                    near: StreamVal, n: nat, end: bool)
    requires Down(p, d, server, sent, fin, client, near) && MayArrive(d, sent, fin, n, end)
    ensures Down(p, Arrive(d, n, end), server, sent, fin, client, Feed(near, sent[d.arrived..d.arrived + n], end))
  {
    hide Feed, Pending, Ended, HeaderArrived;
    FaithfulFeed(near, sent, 0, d, n, end);
    FeedKeepsRest(near, sent[d.arrived..d.arrived + n], end);
  }

  lemma DownBreaks(p: Setup, d: Side, server: ServerPhase, sent: bytes, fin: bool, client: ClientPhase, near: StreamVal)
    requires Down(p, d, server, sent, fin, client, near)
    ensures Down(p, Cut(d), server, sent, fin, client, Fail(near))
    ensures Down(p, Cut(d).(over := true), server, sent, fin, client, Fail(near))
  {
    hide Fail, Pending, Ended, HeaderArrived;
    FaithfulFail(near, sent, 0, d);
    FailKeepsRest(near);
  }

  /** A server that stops copying down. */
  lemma DownHalts(p: Setup, d: Side, sent: bytes, fin: bool, client: ClientPhase, near: StreamVal)
    requires Down(p, d, Relaying, sent, fin, client, near)
    ensures Down(p, d, Halted, sent, fin, client, near)
  {}

  lemma {:induction false} DownRead(p: Setup, d: Side, server: ServerPhase, sent: bytes, fin: bool,
                                    client: ClientPhase, near: StreamVal)
    requires Down(p, d, server, sent, fin, client, near) && Started(client) && Readable(near) && !d.sawEnd
    ensures Down(p, Give(d, ReadResult(near)), server, sent, fin, client, AfterRead(near))
  {
    ReadTotal(near);
    assert p.accepted + d.got + ReadResult(near) == p.accepted + (d.got + ReadResult(near));
  }

  /** What the client sends up does not touch what comes down. */
  lemma DownSender(p: Setup, d: Side, server: ServerPhase, sent: bytes, fin: bool, client: ClientPhase,
                   near: StreamVal, t: StreamVal)
    requires Down(p, d, server, sent, fin, client, near) && t == near.(sent := t.sent, fin := t.fin)
    ensures Down(p, d, server, sent, fin, client, t)
  {
    FaithfulSender(near, t, sent, 0, d);
  }

  /** What open_stream can have read so far. */
  lemma OpeningPrefix(p: Setup, d: Side, server: ServerPhase, sent: bytes, fin: bool, near: StreamVal)
    requires ValidSetup(p) && ReplyOk(p, server, d, sent, fin) && Faithful(near, sent, 0, d)
    ensures var buf := near.got;
            && (HeaderArrived(buf) ==> !server.Waiting? && SplitHead(p.c, buf).Complete?)
            && (HeaderArrived(buf) ==> (Accepts(SplitHead(p.c, buf).frame) <==> Answered(server)))
            && (HeaderArrived(buf) && Answered(server) ==> buf == p.accepted + SplitHead(p.c, buf).rest)
  {
    var buf := near.got;
    assert buf <= Total(near) <= sent[0..Reach(d)];
    assert buf <= sent;
    if server.Refused? {
      HeaderOnlyPrefix(p.c, p.refused, buf, p.refused);
    } else if Answered(server) {
      HeaderOnlyPrefix(p.c, p.accepted, buf, sent);
      if HeaderArrived(buf) {
        assert buf == p.accepted + buf[|p.accepted|..];
      }
    }
  }

  lemma DownOpens(p: Setup, d: Side, server: ServerPhase, sent: bytes, fin: bool, near: StreamVal, rest: bytes)
    requires Down(p, d, server, sent, fin, Failed, near) && near.got == p.accepted + rest
    ensures Down(p, d, server, sent, fin, Copying, Unread(near, rest))
  {
    UnreadTotal(near, p.accepted, rest);
    assert p.accepted + [] == p.accepted;
  }

  lemma {:induction false} DownReadsHeader(p: Setup, d: Side, server: ServerPhase, sent: bytes, fin: bool, buf: bytes,
                                           near: StreamVal)
    requires Down(p, d, server, sent, fin, Opening(buf), near) && Readable(near)
    ensures Down(p, d, server, sent, fin, Failed, AfterRead(near))
    ensures AfterRead(near).got == buf + ReadResult(near)
    ensures AfterRead(near).sent == near.sent && AfterRead(near).fin == near.fin
  {
    ReadTotal(near);
  }

  // ------------------------------------------------------------------------ every step keeps all of it

  lemma ClientAbortKeeps(p: Setup, w: World)
    requires Inv(p, w)
    ensures Inv(p, ClientAbort(w))
  {
    hide Up, Fail, ReplyOk, Faithful, Delivered, HeaderArrived, Pending, Ended;
    FailKeepsRest(w.near);
    DownBreaks(p, w.down, w.server, DownSent(w.far), DownFin(w.far), w.client, w.near);
  }

  lemma OpeningReadKeeps(p: Setup, w: World, buf: bytes, over: bool)
    requires ValidSetup(p) && Inv(p, w.(client := Failed)) && w.client.Opening? && w.near.got == buf
    ensures Inv(p, OpeningRead(p, w, buf, over))
  {
    hide Up, ReplyOk, Faithful, Delivered, ValidSetup, ClientAbort, Unread, HeaderArrived, Accepts, Pending, Ended;
    if !over {
      OpeningPrefix(p, w.down, w.server, DownSent(w.far), DownFin(w.far), w.near);
      HeadShape(p.c, buf);
      if HeaderArrived(buf) {
        var rest := SplitHead(p.c, buf).rest;
        if Answered(w.server) {
          DownOpens(p, w.down, w.server, DownSent(w.far), DownFin(w.far), w.near, rest);
          UnreadKeepsSender(w.near, rest);
        } else {
          ClientAbortKeeps(p, w.(client := Failed));
          AbortUnopened(w);
        }
      }
    }
  }

  lemma TimeOutKeeps(p: Setup, w: World)
    requires Inv(p, w)
    ensures w.client.Opening? ==> Inv(p, w.(client := Failed))
  {
    hide Up, ReplyOk, Faithful, Delivered, HeaderArrived, Pending, Ended;
  }

  lemma UnreadKeepsSender(s: StreamVal, data: bytes)
    ensures Unread(s, data).sent == s.sent && Unread(s, data).fin == s.fin
  {}

  lemma AbortUnopened(w: World)
    requires !Started(w.client)
    ensures ClientAbort(w) == ClientAbort(w.(client := Failed))
  {}

  lemma HeadShape(c: Codec, data: bytes)
    ensures SplitHead(c, data).Incomplete? <==> !HeaderArrived(data)
  {}

  lemma {:induction false} ClientReadKeeps(p: Setup, w: World)
    requires ValidSetup(p) && Inv(p, w)
    ensures Inv(p, ClientRead(p, w))
  {
    hide Up, Down, Readable, ReadResult, AfterRead, OpeningRead, ValidSetup;
    if Readable(w.near) {
      ReadKeepsSender(w.near);
      if w.client.Opening? {
        var buf := w.client.buf;
        DownReadsHeader(p, w.down, w.server, DownSent(w.far), DownFin(w.far), buf, w.near);
        OpeningReadKeeps(p, w.(near := AfterRead(w.near)), buf + ReadResult(w.near), ReadResult(w.near) == []);
      } else if Started(w.client) && !w.down.sawEnd {
        DownRead(p, w.down, w.server, DownSent(w.far), DownFin(w.far), w.client, w.near);
      }
    }
  }

  lemma ReadKeepsSender(s: StreamVal)
    requires Readable(s)
    ensures AfterRead(s).sent == s.sent && AfterRead(s).fin == s.fin
  {}

  lemma ClientSendKeeps(p: Setup, w: World, n: nat, end: bool)
    requires Inv(p, w) && w.client.Copying? && !w.near.fin && w.up.taken + n <= |w.up.source|
    requires end ==> MayFinish(w.up)
    ensures Inv(p, ClientSend(w, n, end))
  {
    hide Up, Down, ClientAbort;
    ClientAbortKeeps(p, w);
    var t := w.near.(sent := w.near.sent + w.up.source[w.up.taken..w.up.taken + n], fin := end);
    UpSends(p, w.up, w.near.sent, w.far, n, end);
    DownSender(p, w.down, w.server, DownSent(w.far), DownFin(w.far), w.client, w.near, t);
  }

  lemma ServerConnectKeeps(p: Setup, w: World, ok: bool)
    requires Inv(p, w)
    ensures Inv(p, ServerConnect(p, w, ok))
  {
    hide Up, Down;
    if w.server.Waiting? && w.far.relay.Some? {
      NothingSentYet(p, w);
      var reply := if ok then p.accepted else p.refused;
      assert [] + reply == reply;
      UpSender(p, w.up, w.near.sent, w.near.fin, w.far, w.far.relay.value.(sent := reply, fin := !ok));
      DownAnswers(p, w.down, w.client, w.near, ok);
    }
  }

  lemma NothingSentYet(p: Setup, w: World)
    requires Inv(p, w) && w.server.Waiting?
    ensures DownSent(w.far) == [] && !DownFin(w.far)
  {}

  lemma {:induction false} ServerReadKeeps(p: Setup, w: World)
    requires Inv(p, w)
    ensures Inv(p, ServerRead(w))
  {
    hide Up, Down, Readable, ReadResult, AfterRead;
    if w.far.relay.Some? && Readable(w.far.relay.value) && !w.up.sawEnd {
      UpRead(p, w.up, w.near.sent, w.near.fin, w.far);
      ReadKeepsSender(w.far.relay.value);
    }
  }

  lemma ServerAbortKeeps(p: Setup, w: World)
    requires Inv(p, w)
    ensures Inv(p, ServerAbort(w))
  {
    hide Up, Down, Fail;
    if w.server.Relaying? && w.far.relay.Some? {
      UpBreaks(p, w.up, w.near.sent, w.near.fin, w.far);
      FailKeepsRest(w.far.relay.value);
      DownHalts(p, w.down, DownSent(w.far), DownFin(w.far), w.client, w.near);
    }
  }

  lemma ServerSendKeeps(p: Setup, w: World, n: nat, end: bool)
    requires Inv(p, w) && ServerMaySend(w) && w.down.taken + n <= |w.down.source|
    requires end ==> MayFinish(w.down)
    ensures Inv(p, ServerSend(w, n, end))
  {
    hide Up, Down, ServerAbort;
    ServerAbortKeeps(p, w);
    var s := w.far.relay.value;
    UpSender(p, w.up, w.near.sent, w.near.fin, w.far,
             s.(sent := s.sent + w.down.source[w.down.taken..w.down.taken + n], fin := end));
    DownSends(p, w.down, DownSent(w.far), w.client, w.near, n, end);
  }

  lemma DeliverUpKeeps(p: Setup, w: World, n: nat, end: bool)
    requires ValidSetup(p) && Inv(p, w) && MayArrive(w.up, w.near.sent, w.near.fin, n, end)
    ensures Inv(p, Next(p, w, DeliverUp(n, end)))
  {
    hide Up, Down, StepData, ValidSetup;
    UpArrives(p, w.up, w.near.sent, w.near.fin, w.far, n, end);
    DataKeepsSender(p, w, w.near.sent[w.up.arrived..w.up.arrived + n], end);
  }

  lemma DataKeepsSender(p: Setup, w: World, data: bytes, end: bool)
    requires ValidSetup(p) && Inv(p, w) && !w.up.over && (w.far.relay.None? ==> !end)
    ensures var far := StepData(p.c, true, true, w.far, data, end);
            DownSent(far) == DownSent(w.far) && DownFin(far) == DownFin(w.far)
                && (w.far.relay.Some? ==> far.relay.Some?)
  {
    if w.far.relay.Some? {
      FeedKeepsRest(w.far.relay.value, data, end);
    }
  }

  lemma BreakUpKeeps(p: Setup, w: World)
    requires Inv(p, w)
    ensures Inv(p, Next(p, w, BreakUp))
  {
    hide Up, Down, Fail;
    UpBreaks(p, w.up, w.near.sent, w.near.fin, w.far);
    if w.far.relay.Some? {
      FailKeepsRest(w.far.relay.value);
    }
  }

  lemma BreakDownKeeps(p: Setup, w: World)
    requires Inv(p, w)
    ensures Inv(p, Next(p, w, BreakDown))
  {
    hide Up, Down, Fail;
    DownBreaks(p, w.down, w.server, DownSent(w.far), DownFin(w.far), w.client, w.near);
    FailKeepsRest(w.near);
  }

  lemma {:induction false} OutsideKeeps(p: Setup, w: World, data: bytes)
    requires Inv(p, w)
    ensures Inv(p, w.(up := Grow(w.up, data))) && Inv(p, w.(up := w.up.(ended := true)))
    ensures Inv(p, w.(down := Grow(w.down, data))) && Inv(p, w.(down := w.down.(ended := true)))
  {
    hide Up, Down;
    UpGrows(p, w.up, w.near.sent, w.near.fin, w.far, data);
    DownGrows(p, w.down, w.server, DownSent(w.far), DownFin(w.far), w.client, w.near, data);
  }

  lemma {:induction false} NextKeeps(p: Setup, w: World, e: Event)
    requires ValidSetup(p) && Inv(p, w)
    ensures Inv(p, Next(p, w, e))
  {
    hide Inv, ValidSetup, ClientRead, ClientSend, ServerConnect, ServerRead, ServerSend, ServerAbort, ClientAbort,
        StepData, Fail, Feed, Grow;
    match e {
      case BrowserSends(data) => OutsideKeeps(p, w, data);
      case BrowserEnds => OutsideKeeps(p, w, []);
      case SiteSends(data) => OutsideKeeps(p, w, data);
      case SiteEnds => OutsideKeeps(p, w, []);
      case ClientReads => ClientReadKeeps(p, w);
      case ClientWrites(n) =>
        if w.client.Copying? && !w.near.fin && MayCopy(w.up, n) { ClientSendKeeps(p, w, n, false); }
      case ClientEnds => if w.client.Copying? && !w.near.fin && MayFinish(w.up) { ClientSendKeeps(p, w, 0, true); }
      case ClientAborts => ClientAbortKeeps(p, w);
      case ClientTimesOut => TimeOutKeeps(p, w);
      case ServerConnects(ok) => ServerConnectKeeps(p, w, ok);
      case ServerReads => ServerReadKeeps(p, w);
      case ServerWrites(n) =>
        if ServerMaySend(w) && MayCopy(w.down, n) { ServerSendKeeps(p, w, n, false); }
      case ServerEnds =>
        if ServerMaySend(w) && MayFinish(w.down) { ServerSendKeeps(p, w, 0, true); }
      case ServerAborts => ServerAbortKeeps(p, w);
      case DeliverUp(n, end) => if MayArrive(w.up, w.near.sent, w.near.fin, n, end) { DeliverUpKeeps(p, w, n, end); }
      case BreakUp => BreakUpKeeps(p, w);
      case DeliverDown(n, end) =>
        if MayArrive(w.down, DownSent(w.far), DownFin(w.far), n, end) { DeliverDownKeeps(p, w, n, end); }
      case BreakDown => BreakDownKeeps(p, w);
    }
  }

  lemma DeliverDownKeeps(p: Setup, w: World, n: nat, end: bool)
    requires Inv(p, w) && MayArrive(w.down, DownSent(w.far), DownFin(w.far), n, end)
    ensures Inv(p, Next(p, w, DeliverDown(n, end)))
  {
    hide Up, Down, Feed;
    DownArrives(p, w.down, w.server, DownSent(w.far), DownFin(w.far), w.client, w.near, n, end);
    FeedKeepsRest(w.near, DownSent(w.far)[w.down.arrived..w.down.arrived + n], end);
  }

  lemma {:induction false} RunKeeps(p: Setup, es: seq<Event>)
    requires ValidSetup(p)
    ensures Inv(p, Run(p, es))
  {
    if es == [] {
      assert p.connect + [] == p.connect;
    } else {
      RunKeeps(p, es[..|es| - 1]);
      NextKeeps(p, Run(p, es[..|es| - 1]), es[|es| - 1]);
    }
  }

  // ----------------------------------------------------------------------------------------- theorems

  /** A reader of a stream that carries a header and a source sees a prefix of the source behind the
      header; if it got as far as it can, all of the source exactly when it can get that far. */
  lemma ReaderSeesSource(header: bytes, d: Side, sent: bytes, got: bytes)
    requires d.taken <= |d.source| && sent == header + d.source[..d.taken]
    requires |header| <= Reach(d) <= |sent| && got <= sent[|header|..Reach(d)]
    ensures got <= d.source
    ensures got == sent[|header|..Reach(d)] ==> (got == d.source <==> Reach(d) == |header| + |d.source|)
  {
    assert sent[|header|..][..Reach(d) - |header|] == sent[|header|..Reach(d)];
    assert sent[|header|..] == d.source[..d.taken];
  }

  /** What a receiving program has of one direction, whose stream starts with header. */
  ghost predicate Received(header: bytes, d: Side) {
    && d.got <= d.source
    && (d.sawEnd ==> (d.got == d.source <==> d.cut.None? || d.cut.value == |header| + |d.source|))
    && (d.sawEnd && d.cut.None? ==> d.ended)
  }

  lemma SiteSees(p: Setup, w: World)
    requires Inv(p, w)
    ensures Received(p.connect, w.up)
  {
    if w.far.relay.Some? {
      var s := w.far.relay.value;
      ReaderSeesSource(p.connect, w.up, w.near.sent, w.up.got);
      if w.up.sawEnd {
        assert Total(s) == s.got;
      }
    }
  }

  lemma BrowserSees(p: Setup, w: World)
    requires Inv(p, w)
    ensures Received(p.accepted, w.down)
  {
    if Started(w.client) {
      var sent, d := DownSent(w.far), w.down;
      var x := p.accepted + d.got;
      assert x <= Total(w.near) <= sent[0..Reach(d)];
      assert d.got == x[|p.accepted|..] <= sent[|p.accepted|..Reach(d)];
      ReaderSeesSource(p.accepted, d, sent, d.got);
      if d.sawEnd {
        assert Total(w.near) == w.near.got == x;
        assert d.got == sent[|p.accepted|..Reach(d)];
      }
    }
  }

  /** Over every schedule, with any resets, aborts and losses: what the site has received is a prefix of what
      the browser sent, and the other way round. */
  lemma {:induction false} AlwaysPrefix(p: Setup, es: seq<Event>)
    requires ValidSetup(p)
    ensures Run(p, es).up.got <= Run(p, es).up.source
    ensures Run(p, es).down.got <= Run(p, es).down.source
  {
    RunKeeps(p, es);
    SiteSees(p, Run(p, es));
    BrowserSees(p, Run(p, es));
  }

  /** Direction by direction, over every schedule: a side that has seen the end of stream has received
      exactly what the other side sent, if and only if that direction was not cut, or was cut only behind its
      last byte; and if it was not cut, the other side has indeed finished. */
  lemma {:induction false} EndMeansEverythingUnlessCut(p: Setup, es: seq<Event>)
    requires ValidSetup(p)
    ensures Received(p.connect, Run(p, es).up)
    ensures Received(p.accepted, Run(p, es).down)
  {
    RunKeeps(p, es);
    SiteSees(p, Run(p, es));
    BrowserSees(p, Run(p, es));
  }

  /** The demultiplexer's one lossy case cannot arise: the client writes nothing behind the header, and
      no end of stream, before the server has opened the relay. */
  lemma {:induction false} NothingBehindTheHeaderTooEarly(p: Setup, es: seq<Event>)
    requires ValidSetup(p) && Run(p, es).far.relay.None?
    ensures Run(p, es).near.sent == p.connect && !Run(p, es).near.fin
  {
    RunKeeps(p, es);
    assert p.connect + Run(p, es).up.source[..0] == p.connect;
  }

  /** A schedule that cuts: after a reset the site sees an end of stream although a byte is missing. */
  lemma ResetTruncates(p: Setup)
    requires ValidSetup(p)
    ensures exists es :: Run(p, es).up.sawEnd && Run(p, es).up.got != Run(p, es).up.source
  {
    hide Next;
    var es := [DeliverUp(|p.connect|, false), ServerConnects(true), BrowserSends([7]), BreakUp, ServerReads];
    var w1 := Next(p, Start(p), es[0]);
    var w2 := Next(p, w1, es[1]);
    var w3 := Next(p, w2, es[2]);
    var w4 := Next(p, w3, es[3]);
    assert es[..1][..0] == [] && es[..2][..1] == es[..1] && es[..3][..2] == es[..2] && es[..4][..3] == es[..3];
    assert Run(p, es[..1]) == w1;
    assert Run(p, es[..2]) == w2;
    assert Run(p, es[..3]) == w3;
    assert Run(p, es[..4]) == w4;
    assert Run(p, es) == Next(p, w4, es[4]);
    OpenedRun(p);
    TruncatedRun(p, w1);
  }

  lemma OpenedRun(p: Setup)
    requires ValidSetup(p)
    ensures var w := Next(p, Start(p), DeliverUp(|p.connect|, false));
            w.up == IDLE.(arrived := |p.connect|) && w.server.Waiting? && w.far.relay == Some(FRESH) && w.far.routed
  {
    assert FarOk(p, IDLE, p.connect, UNSEEN);
    Gathers(p, IDLE, UNSEEN, |p.connect|);
  }

  lemma TruncatedRun(p: Setup, w: World)
    requires w.server.Waiting? && w.far.relay == Some(FRESH) && w.far.routed && w.up.source == [] && w.up.got == []
        && !w.up.ended && !w.up.sawEnd
    ensures var w2 := Next(p, w, ServerConnects(true));
            var w5 := Next(p, Next(p, Next(p, w2, BrowserSends([7])), BreakUp), ServerReads);
            w5.up.sawEnd && w5.up.got == [] && w5.up.source == [7]
  {
    assert [] + p.accepted == p.accepted;
  }

  /** On the way up only a break of the stream or a failing server loop cuts, and only before the end has
      arrived; the cut is where the stream stood at that moment. */
  lemma UpIsCutWhen(p: Setup, w: World, e: Event)
    ensures var after := Next(p, w, e);
            after.up.cut != w.up.cut ==>
                (e.BreakUp? || after.server.Halted?) && !w.up.over && after.up.cut == Some(w.up.arrived)
    ensures w.up.over || Next(p, w, BreakUp).up.cut.Some?
  {
    hide StepData, Step, Feed, Fail, Unread, SplitHead, Accepts, Readable, ReadResult, AfterRead, Send, MayCopy,
        MayFinish, ClientRead;
    if e.ClientReads? {
      ReadingCutsNothingUp(p, w);
    }
  }

  lemma ReadingCutsNothingUp(p: Setup, w: World)
    ensures ClientRead(p, w).up == w.up
  {
    hide StepData, Step, Feed, Fail, Unread, SplitHead, Accepts, Readable, ReadResult, AfterRead, Send, MayCopy,
        MayFinish;
  }

  /** On the way down only a break of the stream or the client giving it up. */
  lemma DownIsCutWhen(p: Setup, w: World, e: Event)
    ensures var after := Next(p, w, e);
            after.down.cut != w.down.cut ==>
              && (e.BreakDown? || after.client.Stopped? || after.client.Failed?)
              && !w.down.over && after.down.cut == Some(w.down.arrived)
    ensures w.down.over || Next(p, w, BreakDown).down.cut.Some?
  {
    hide StepData, Step, Feed, Fail, Unread, SplitHead, Accepts, Readable, ReadResult, AfterRead, Send, MayCopy,
        MayFinish, ClientRead;
    if e.ClientReads? {
      RefusalCutsDown(p, w);
    }
  }

  lemma RefusalCutsDown(p: Setup, w: World)
    ensures var after := ClientRead(p, w);
            after.down.cut != w.down.cut ==>
                after.client.Failed? && !w.down.over && after.down.cut == Some(w.down.arrived)
  {
    hide StepData, Step, Feed, Fail, Unread, SplitHead, Accepts, Readable, ReadResult, AfterRead, Send, MayCopy,
        MayFinish;
  }

  /** The client's CONNECT frame. */
  function ConnectFrame(host: string, port: int): Frame {
    Frame(Connect, map["host" := JStr(host), "port" := JNum(port, 0)], [])
  }

  /** The server's answer to it: 200, 403 for a port that is not allowed, 502 for a site out of reach. */
  function StatusFrame(status: int): Frame {
    Frame(Response, map[STATUS := JNum(status, 0)], [])
  }

  /** The frames the proxies really send make a valid setup, unless a header is too long to be counted. */
  lemma RealFramesAreValid(c: Codec, host: string, port: int, refusal: int)
    requires LawfulCodec(c) && refusal != 200
    requires Wire(c, ConnectFrame(host, port), true).Some?
    requires Wire(c, StatusFrame(200), true).Some? && Wire(c, StatusFrame(refusal), true).Some?
    ensures ValidSetup(Setup(c, Wire(c, ConnectFrame(host, port), true).value,
                             Wire(c, StatusFrame(200), true).value, Wire(c, StatusFrame(refusal), true).value))
  {
    hide Wire, SplitHead, HeaderArrived, HeaderEnd, LawfulCodec;
    HeaderOnlyFrame(c, ConnectFrame(host, port));
    HeaderOnlyFrame(c, StatusFrame(200));
    HeaderOnlyFrame(c, StatusFrame(refusal));
  }

  lemma HeaderOnlyFrame(c: Codec, f: Frame)
    requires LawfulCodec(c) && TYPE !in f.headers && ENC !in f.headers && f.body == [] && Wire(c, f, true).Some?
    ensures HeaderOnly(c, Wire(c, f, true).value) && SplitHead(c, Wire(c, f, true).value).frame == f
  {
    var w := Wire(c, f, true).value;
    WireLayout(c, f, true);
    assert w[..HeaderEnd(w)] + [] == w;
    SplitHeadIncremental(c, f, true, HeaderEnd(w), []);
  }
}
