/** HTTPS pass-through gets through: when nothing is left to do everything has arrived, and without a
    failure that point is always reached. */
module Delivery {
  import opened Prelude
  import opened Protocol
  import opened QuicStreams
  import opened ServerDemux
  import opened PassThrough

  /** The copy loops and the network on the way up, and on the way down. */
  predicate IsUp(e: PassThrough.Event) {
    e.ClientWrites? || e.ClientEnds? || e.ServerReads? || (e.DeliverUp? && (e.n > 0 || e.end))
  }

  predicate IsDown(e: PassThrough.Event) {
    e.ServerWrites? || e.ServerEnds? || e.ClientReads? || (e.DeliverDown? && (e.n > 0 || e.end))
  }

  /** No step up changes anything any more. */
  ghost predicate UpAtRest(p: Setup, w: World) { forall e :: IsUp(e) ==> Next(p, w, e) == w }

  ghost predicate DownAtRest(p: Setup, w: World) { forall e :: IsDown(e) ==> Next(p, w, e) == w }

  // -------------------------------------------------------------------------------- nothing left to do

  lemma AllTaken(p: Setup, w: World)
    requires Inv(p, w) && w.client.Copying? && UpAtRest(p, w)
    ensures w.up.taken == |w.up.source| && (w.up.ended ==> w.near.fin)
  {
    hide Up, Down, Next;
    UpSenderSide(p, w);
    if w.up.taken < |w.up.source| {
      assert IsUp(ClientWrites(1));
      WritingMoves(p, w);
    } else if w.up.ended && !w.near.fin {
      assert IsUp(ClientEnds);
      EndingMoves(p, w);
    }
  }

  lemma UpSenderSide(p: Setup, w: World)
    requires Inv(p, w)
    ensures w.up.taken <= |w.up.source| && w.near.sent == p.connect + w.up.source[..w.up.taken]
    ensures w.near.fin ==> w.up.ended && w.up.taken == |w.up.source|
  {}

  lemma WritingMoves(p: Setup, w: World)
    requires w.client.Copying? && !w.near.fin && w.up.taken < |w.up.source|
    ensures Next(p, w, ClientWrites(1)) != w
  {}

  lemma EndingMoves(p: Setup, w: World)
    requires w.client.Copying? && !w.near.fin && MayFinish(w.up)
    ensures Next(p, w, ClientEnds) != w
  {}

  lemma AllAnswered(p: Setup, w: World)
    requires Inv(p, w) && w.server.Relaying? && DownAtRest(p, w)
    ensures w.down.taken == |w.down.source| && (w.down.ended ==> DownFin(w.far))
  {
    hide Up, Down, Next;
    DownSenderSide(p, w);
    if w.down.taken < |w.down.source| {
      assert IsDown(ServerWrites(1));
      AnsweringMoves(p, w);
    } else if w.down.ended && !DownFin(w.far) {
      assert IsDown(ServerEnds);
      ClosingMoves(p, w);
    }
  }

  lemma DownSenderSide(p: Setup, w: World)
    requires Inv(p, w)
    ensures w.server.Relaying? ==> w.far.relay.Some?
    ensures Answered(w.server) ==>
              && w.down.taken <= |w.down.source| && DownSent(w.far) == p.accepted + w.down.source[..w.down.taken]
              && (DownFin(w.far) ==> w.down.ended && w.down.taken == |w.down.source|)
  {}

  lemma AnsweringMoves(p: Setup, w: World)
    requires ServerMaySend(w) && w.down.taken < |w.down.source|
    ensures Next(p, w, ServerWrites(1)) != w
  {}

  lemma ClosingMoves(p: Setup, w: World)
    requires ServerMaySend(w) && MayFinish(w.down)
    ensures Next(p, w, ServerEnds) != w
  {}

  lemma AllArrivedUp(p: Setup, w: World)
    requires Inv(p, w) && UpAtRest(p, w) && w.up.cut.None?
    ensures w.up.arrived == |w.near.sent| && (w.near.fin ==> w.up.over)
  {
    hide Up, Down, Next;
    UpInFlight(p, w);
    if w.up.arrived < |w.near.sent| {
      assert IsUp(DeliverUp(1, false));
      ArrivingMoves(p, w, 1, false);
    } else if w.near.fin && !w.up.over {
      assert IsUp(DeliverUp(0, true));
      ArrivingMoves(p, w, 0, true);
    }
  }

  lemma UpInFlight(p: Setup, w: World)
    requires Inv(p, w)
    ensures w.up.arrived <= |w.near.sent|
    ensures w.up.over && w.up.cut.None? ==> w.near.fin && w.up.arrived == |w.near.sent|
  {}

  lemma ArrivingMoves(p: Setup, w: World, n: nat, end: bool)
    requires MayArrive(w.up, w.near.sent, w.near.fin, n, end) && (n > 0 || end)
    ensures Next(p, w, DeliverUp(n, end)) != w
  {
    hide StepData;
  }

  lemma AllArrivedDown(p: Setup, w: World)
    requires Inv(p, w) && DownAtRest(p, w) && w.down.cut.None?
    ensures w.down.arrived == |DownSent(w.far)| && (DownFin(w.far) ==> w.down.over)
  {
    hide Up, Down, Next;
    DownInFlight(p, w);
    if w.down.arrived < |DownSent(w.far)| {
      assert IsDown(DeliverDown(1, false));
      ReturningMoves(p, w, 1, false);
    } else if DownFin(w.far) && !w.down.over {
      assert IsDown(DeliverDown(0, true));
      ReturningMoves(p, w, 0, true);
    }
  }

  lemma DownInFlight(p: Setup, w: World)
    requires Inv(p, w)
    ensures w.down.arrived <= |DownSent(w.far)|
    ensures w.down.over && w.down.cut.None? ==> DownFin(w.far) && w.down.arrived == |DownSent(w.far)|
  {}

  lemma ReturningMoves(p: Setup, w: World, n: nat, end: bool)
    requires MayArrive(w.down, DownSent(w.far), DownFin(w.far), n, end) && (n > 0 || end)
    ensures Next(p, w, DeliverDown(n, end)) != w
  {
    hide Feed;
  }

  /** The server's copy loop has given the site all that came, up to the cut if there was one, and then
      the end. */
  lemma AllGivenToSite(p: Setup, w: World)
    requires Inv(p, w) && Answered(w.server) && Next(p, w, ServerReads) == w
    ensures |p.connect| <= Reach(w.up) <= |w.near.sent| && w.up.got == w.near.sent[|p.connect|..Reach(w.up)]
    ensures w.up.sawEnd <==> w.up.over || w.up.cut.Some?
  {
    var s := w.far.relay.value;
    if !w.up.sawEnd && Readable(s) {
      GivingMoves(w.up, ReadResult(s));
    } else if !w.up.sawEnd {
      NothingToRead(s);
    }
  }

  lemma GivingMoves(d: Side, data: bytes)
    requires !d.sawEnd
    ensures Give(d, data) != d
  {
    assert |d.got + data| == |d.got| + |data|;
  }

  lemma AllGivenToBrowser(p: Setup, w: World)
    requires Inv(p, w) && Started(w.client) && Next(p, w, ClientReads) == w
    ensures Reach(w.down) <= |DownSent(w.far)| && p.accepted + w.down.got == DownSent(w.far)[..Reach(w.down)]
    ensures w.down.sawEnd <==> w.down.over || w.down.cut.Some?
  {
    var s := w.near;
    if !w.down.sawEnd && Readable(s) {
      GivingMoves(w.down, ReadResult(s));
    } else if !w.down.sawEnd {
      NothingToRead(s);
    }
    assert DownSent(w.far)[0..Reach(w.down)] == DownSent(w.far)[..Reach(w.down)];
  }

  /** Over every schedule, whatever has happened to the other direction: once the client copies, the server
      relays, the way up was not cut and none of its steps changes anything any more, the site has all that
      the browser sent, and sees the end exactly if the browser has finished. */
  lemma {:induction false} UpGetsThrough(p: Setup, es: seq<PassThrough.Event>)
    requires ValidSetup(p) && UpAtRest(p, PassThrough.Run(p, es))
    requires var w := PassThrough.Run(p, es); w.client.Copying? && Answered(w.server) && w.up.cut.None?
    ensures var u := PassThrough.Run(p, es).up; u.got == u.source && (u.sawEnd <==> u.ended)
  {
    var w := PassThrough.Run(p, es);
    PassThrough.RunKeeps(p, es);
    UpIsThrough(p, w);
    hide PassThrough.Run, Inv, ValidSetup, UpAtRest;
  }

  lemma UpIsThrough(p: Setup, w: World)
    requires Inv(p, w) && UpAtRest(p, w) && w.client.Copying? && Answered(w.server) && w.up.cut.None?
    ensures w.up.got == w.up.source && (w.up.sawEnd <==> w.up.ended)
  {
    AllTaken(p, w);
    AllArrivedUp(p, w);
    assert IsUp(ServerReads);
    AllGivenToSite(p, w);
    UpSenderSide(p, w);
    UpInFlight(p, w);
    hide Up, Down, Next;
    assert w.near.sent[|p.connect|..] == w.up.source;
  }

  /** Likewise down: what the browser has when the way down is at rest. */
  lemma {:induction false} DownGetsThrough(p: Setup, es: seq<PassThrough.Event>)
    requires ValidSetup(p) && DownAtRest(p, PassThrough.Run(p, es))
    requires var w := PassThrough.Run(p, es); w.server.Relaying? && Started(w.client) && w.down.cut.None?
    ensures var d := PassThrough.Run(p, es).down; d.got == d.source && (d.sawEnd <==> d.ended)
  {
    var w := PassThrough.Run(p, es);
    PassThrough.RunKeeps(p, es);
    DownIsThrough(p, w);
    hide PassThrough.Run, Inv, ValidSetup, DownAtRest;
  }

  lemma DownIsThrough(p: Setup, w: World)
    requires Inv(p, w) && DownAtRest(p, w) && w.server.Relaying? && Started(w.client) && w.down.cut.None?
    ensures w.down.got == w.down.source && (w.down.sawEnd <==> w.down.ended)
  {
    AllAnswered(p, w);
    AllArrivedDown(p, w);
    assert IsDown(ClientReads);
    AllGivenToBrowser(p, w);
    DownSenderSide(p, w);
    DownInFlight(p, w);
    hide Up, Down, Next;
    assert DownSent(w.far)[..Reach(w.down)] == DownSent(w.far);
    assert w.down.got == (p.accepted + w.down.got)[|p.accepted|..] == w.down.source;
  }

  /** A direction that was cut still hands over all that came before the cut, and then shows the end: no
      reader waits for ever. */
  lemma {:induction false} WhatCameBeforeTheCutIsGiven(p: Setup, es: seq<PassThrough.Event>)
    requires ValidSetup(p)
    ensures var w := PassThrough.Run(p, es);
            && (Answered(w.server) && Next(p, w, ServerReads) == w ==>
                  && |p.connect| <= Reach(w.up) <= |w.near.sent|
                  && w.up.got == w.near.sent[|p.connect|..Reach(w.up)]
                  && (w.up.sawEnd <==> w.up.over || w.up.cut.Some?))
            && (Started(w.client) && Next(p, w, ClientReads) == w ==>
                  && Reach(w.down) <= |DownSent(w.far)|
                  && p.accepted + w.down.got == DownSent(w.far)[..Reach(w.down)]
                  && (w.down.sawEnd <==> w.down.over || w.down.cut.Some?))
  {
    var w := PassThrough.Run(p, es);
    PassThrough.RunKeeps(p, es);
    if Answered(w.server) && Next(p, w, ServerReads) == w {
      AllGivenToSite(p, w);
    }
    if Started(w.client) && Next(p, w, ClientReads) == w {
      AllGivenToBrowser(p, w);
    }
    hide PassThrough.Run, Inv, ValidSetup, Next;
  }

  // ------------------------------------------------------------------------------ without a failure

  /** Whatever is not a reset, a lost connection, an error, a time-out or a site out of reach. */
  predicate Harmless(e: PassThrough.Event) {
    !e.BreakUp? && !e.BreakDown? && !e.ClientAborts? && !e.ServerAborts? && !e.ClientTimesOut?
        && e != ServerConnects(false)
  }

  ghost predicate Smooth(es: seq<PassThrough.Event>) { forall e <- es :: Harmless(e) }

  /** Nothing has gone wrong. */
  ghost predicate Fine(w: World) {
    && (w.client.Opening? || w.client.Copying?) && (w.server.Waiting? || w.server.Relaying?)
    && w.up.cut.None? && w.down.cut.None? && !w.near.closed && (w.far.relay.Some? ==> !w.far.relay.value.closed)
  }

  lemma FineConnect(p: Setup, w: World)
    requires Inv(p, w) && Fine(w)
    ensures Fine(ServerConnect(p, w, true))
    ensures w.server.Waiting? && w.far.relay.Some? ==> ServerConnect(p, w, true).server.Relaying?
  {
    hide Up, Down;
    if w.server.Waiting? {
      NothingSentYet(p, w);
    }
  }

  lemma FineSends(p: Setup, w: World, n: nat, end: bool)
    requires Fine(w)
    ensures !w.near.fin && w.up.taken + n <= |w.up.source| ==>
              var r := ClientSend(w, n, end);
              && Fine(r) && r.(near := w.near, up := w.up) == w && r.up == w.up.(taken := w.up.taken + n)
              && r.near == w.near.(sent := r.near.sent, fin := end)
    ensures ServerMaySend(w) && w.down.taken + n <= |w.down.source| ==>
              var r := ServerSend(w, n, end);
              && Fine(r) && r.(far := w.far, down := w.down) == w && r.down == w.down.(taken := w.down.taken + n)
              && r.far == w.far.(relay := r.far.relay) && r.far.relay.Some?
              && r.far.relay.value == w.far.relay.value.(sent := r.far.relay.value.sent, fin := end)
  {}

  lemma FineServerRead(p: Setup, w: World)
    requires Fine(w)
    ensures Fine(ServerRead(w))
  {}

  /** Before the reply header is complete there is something to read or still to come. */
  lemma ReplyIsRead(p: Setup, w: World)
    requires ValidSetup(p) && Inv(p, w) && Fine(w) && w.client.Opening? && Readable(w.near)
    ensures ReadResult(w.near) != []
  {
    if ReadResult(w.near) == [] {
      ReadTotal(w.near);
      DownSenderSide(p, w);
      DownInFlight(p, w);
      assert w.near.got == Total(w.near) == DownSent(w.far)[0..Reach(w.down)];
      assert DownSent(w.far)[0..|DownSent(w.far)|] == DownSent(w.far);
      HeaderOnlyPrefix(p.c, p.accepted, w.near.got, DownSent(w.far));
    }
  }

  lemma FineClientRead(p: Setup, w: World)
    requires ValidSetup(p) && Inv(p, w) && Fine(w)
    ensures Fine(ClientRead(p, w))
    ensures w.client.Opening? && Readable(w.near) ==> ClientRead(p, w).client != w.client
  {
    hide Up, Readable, ReadResult, AfterRead;
    if Readable(w.near) && w.client.Opening? {
      ReplyIsRead(p, w);
      var buf, near := w.client.buf, AfterRead(w.near);
      DownReadsHeader(p, w.down, w.server, DownSent(w.far), DownFin(w.far), buf, w.near);
      OpeningPrefix(p, w.down, w.server, DownSent(w.far), DownFin(w.far), near);
      HeadShape(p.c, buf + ReadResult(w.near));
      ReadKeepsClosed(w.near);
      hide Down, Faithful, ReplyOk, BrowserOk, Delivered, HeaderArrived, ValidSetup;
      HeaderStillOpen(w, buf, ReadResult(w.near));
    } else if Readable(w.near) {
      ReadKeepsClosed(w.near);
    }
  }

  lemma HeaderStillOpen(w: World, buf: bytes, data: bytes)
    requires data != []
    ensures Opening(buf + data) != Opening(buf)
  {
    assert |buf + data| != |buf|;
  }

  lemma ReadKeepsClosed(s: StreamVal)
    requires Readable(s)
    ensures AfterRead(s).closed == s.closed
  {}

  lemma FineArrival(p: Setup, w: World, n: nat, end: bool)
    requires ValidSetup(p) && Inv(p, w) && Fine(w) && MayArrive(w.up, w.near.sent, w.near.fin, n, end)
    ensures Fine(Next(p, w, DeliverUp(n, end)))
  {
    hide Up, Down, ValidSetup, Feed, SplitHead, FarOk;
    if w.far.relay.None? {
      GatheringSoFar(p, w);
      EarlyEnd(p, w);
      Gathers(p, w.up, w.far, n);
    } else {
      RoutedWhileOpen(p, w);
      FeedKeepsClosed(w.far.relay.value, w.near.sent[w.up.arrived..w.up.arrived + n], end);
    }
    hide Inv;
  }

  lemma GatheringSoFar(p: Setup, w: World)
    requires Inv(p, w) && w.far.relay.None?
    ensures w.near.sent == p.connect && FarOk(p, w.up, p.connect, w.far)
  {
    assert p.connect + w.up.source[..0] == p.connect;
  }

  lemma RoutedWhileOpen(p: Setup, w: World)
    requires Inv(p, w) && w.far.relay.Some? && !w.up.over
    ensures w.far.routed
  {}

  lemma FeedKeepsClosed(s: StreamVal, data: bytes, end: bool)
    ensures Feed(s, data, end).closed == s.closed
  {}

  lemma FineStep(p: Setup, w: World, e: PassThrough.Event)
    requires ValidSetup(p) && Inv(p, w) && Fine(w) && Harmless(e)
    ensures Fine(Next(p, w, e))
  {
    hide ClientRead, ClientSend, ServerSend, ServerConnect, ServerRead, StepData, Inv, ValidSetup, Feed, Fail;
    match e {
      case ClientReads => FineClientRead(p, w);
      case ClientWrites(n) => FineSends(p, w, n, false);
      case ClientEnds => FineSends(p, w, 0, true);
      case ServerConnects(_) => FineConnect(p, w);
      case ServerReads => FineServerRead(p, w);
      case ServerWrites(n) => FineSends(p, w, n, false);
      case ServerEnds => FineSends(p, w, 0, true);
      case DeliverUp(n, end) =>
        if MayArrive(w.up, w.near.sent, w.near.fin, n, end) {
          FineArrival(p, w, n, end);
        }
      case DeliverDown(n, end) =>
        if MayArrive(w.down, DownSent(w.far), DownFin(w.far), n, end) {
          FeedKeepsClosed(w.near, DownSent(w.far)[w.down.arrived..w.down.arrived + n], end);
        }
      case _ =>
    }
  }

  lemma {:induction false} SmoothIsFine(p: Setup, es: seq<PassThrough.Event>)
    requires ValidSetup(p) && Smooth(es)
    ensures Fine(PassThrough.Run(p, es))
  {
    if es != [] {
      var front := es[..|es| - 1];
      assert es[|es| - 1] in es && forall e <- front :: e in es;
      SmoothIsFine(p, front);
      PassThrough.RunKeeps(p, front);
      FineStep(p, PassThrough.Run(p, front), es[|es| - 1]);
      hide Next, Inv, ValidSetup;
    }
  }

  // -------------------------------------------------------------------------- getting to the end

  /** What the programs and the network do by themselves. */
  predicate CarriesOn(e: PassThrough.Event) { IsUp(e) || IsDown(e) || e == ServerConnects(true) }

  /** Both ends are connected and have exactly what the other side sent. */
  predicate Done(w: World) {
    && w.client.Copying? && w.server.Relaying?
    && w.up.got == w.up.source && (w.up.sawEnd <==> w.up.ended)
    && w.down.got == w.down.source && (w.down.sawEnd <==> w.down.ended)
  }

  /** The handshake does not stop half-way. */
  lemma RestIsConnected(p: Setup, w: World)
    requires ValidSetup(p) && Inv(p, w) && Fine(w)
    requires forall e :: CarriesOn(e) ==> Next(p, w, e) == w
    ensures w.client.Copying? && w.server.Relaying?
  {
    hide Next;
    assert forall e :: IsUp(e) || IsDown(e) ==> CarriesOn(e);
    if w.far.relay.None? {
      StillGathering(p, w);
      assert IsUp(DeliverUp(1, false));
      ArrivingMoves(p, w, 1, false);
    } else if w.server.Waiting? {
      assert CarriesOn(ServerConnects(true));
      ConnectIs(p, w);
      FineConnect(p, w);
    } else if w.client.Opening? {
      AllArrivedDown(p, w);
      ReplyIsThere(p, w);
      FineClientRead(p, w);
      assert IsDown(ClientReads);
      ReadIs(p, w);
    }
  }

  lemma ConnectIs(p: Setup, w: World)
    ensures Next(p, w, ServerConnects(true)) == ServerConnect(p, w, true)
  {
    hide ServerConnect;
  }

  lemma ReadIs(p: Setup, w: World)
    ensures Next(p, w, ClientReads) == ClientRead(p, w)
  {
    hide ClientRead;
  }

  lemma StillGathering(p: Setup, w: World)
    requires Inv(p, w) && Fine(w) && w.far.relay.None?
    ensures MayArrive(w.up, w.near.sent, w.near.fin, 1, false)
  {}

  lemma ReplyIsThere(p: Setup, w: World)
    requires ValidSetup(p) && Inv(p, w) && Fine(w) && w.server.Relaying? && w.client.Opening?
    requires w.down.arrived == |DownSent(w.far)|
    ensures Readable(w.near)
  {
    if !Readable(w.near) {
      NothingToRead(w.near);
      DownSenderSide(p, w);
      assert DownSent(w.far)[0..|DownSent(w.far)|] == DownSent(w.far);
      assert w.near.got == Total(w.near) == DownSent(w.far);
      HeaderOnlyPrefix(p.c, p.accepted, w.near.got, DownSent(w.far));
    }
  }

  /** A smooth run in which no step changes anything any more is complete. */
  lemma RestIsDone(p: Setup, es: seq<PassThrough.Event>)
    requires ValidSetup(p) && Smooth(es)
    requires forall e :: CarriesOn(e) ==> Next(p, PassThrough.Run(p, es), e) == PassThrough.Run(p, es)
    ensures Done(PassThrough.Run(p, es))
  {
    var w := PassThrough.Run(p, es);
    assert forall e :: IsUp(e) || IsDown(e) ==> CarriesOn(e);
    PassThrough.RunKeeps(p, es);
    SmoothIsFine(p, es);
    RestIsConnected(p, w);
    hide PassThrough.Run, Inv, ValidSetup, Next;
    UpIsThrough(p, w);
    DownIsThrough(p, w);
  }

  function Flag(b: bool): nat { if b then 0 else 1 }

  /** How much is left to do, most important first: connecting, copying onto the stream, delivering, reading. */
  ghost function Phases(w: World): nat { Flag(!w.client.Opening?) + Flag(!w.server.Waiting?) }

  ghost function Copies(w: World): int {
    |w.up.source| - w.up.taken + Flag(w.near.fin) + |w.down.source| - w.down.taken + Flag(DownFin(w.far))
  }

  ghost function Flights(w: World): int {
    |w.near.sent| - w.up.arrived + Flag(w.up.over) + |DownSent(w.far)| - w.down.arrived + Flag(w.down.over)
  }

  ghost function Reads(w: World): nat {
    Left(w.near) + (if w.far.relay.Some? then Left(w.far.relay.value) else 0) + Flag(w.up.sawEnd) +
        Flag(w.down.sawEnd)
  }

  ghost predicate Nearer(w: World, r: World) {
    || Phases(r) < Phases(w)
    || (Phases(r) == Phases(w) && Copies(r) < Copies(w))
    || (Phases(r) == Phases(w) && Copies(r) == Copies(w) && Flights(r) < Flights(w))
    || (Phases(r) == Phases(w) && Copies(r) == Copies(w) && Flights(r) == Flights(w) && Reads(r) < Reads(w))
  }

  lemma CountsArePositive(p: Setup, w: World)
    requires Inv(p, w) && Fine(w)
    ensures Copies(w) >= 0 && Flights(w) >= 0
  {
    UpSenderSide(p, w);
    UpInFlight(p, w);
    DownSenderSide(p, w);
    DownInFlight(p, w);
    hide Up, Down;
  }

  lemma ReadShrinks(s: StreamVal)
    requires Readable(s)
    ensures Left(AfterRead(s)) <= Left(s) && (ReadResult(s) != [] ==> Left(AfterRead(s)) < Left(s))
    ensures AfterRead(s).sent == s.sent && AfterRead(s).fin == s.fin
  {
    LeftShrinks(s);
    FlattenUnder(s.chunks);
  }

  lemma ClientReadIsNearer(p: Setup, w: World)
    requires ValidSetup(p) && Inv(p, w) && Fine(w) && ClientRead(p, w) != w
    ensures Nearer(w, ClientRead(p, w))
  {
    hide Up, Down, Left, Readable, ReadResult, AfterRead;
    ReadShrinks(w.near);
    FineClientRead(p, w);
    if w.client.Opening? {
      ReplyIsRead(p, w);
      OpeningKeeps(p, w.(near := AfterRead(w.near)), w.client.buf + ReadResult(w.near));
    }
    hide OpeningRead, Inv, ValidSetup;
  }

  lemma OpeningKeeps(p: Setup, w: World, buf: bytes)
    requires w.client.Opening?
    ensures var r := OpeningRead(p, w, buf, false);
            && (r.client.Opening? ==> r.(client := w.client) == w)
            && (r.client.Copying? ==> r.server == w.server)
  {}

  lemma ServerReadIsNearer(w: World)
    requires Fine(w) && ServerRead(w) != w
    ensures Nearer(w, ServerRead(w))
  {
    hide Left, Readable, ReadResult, AfterRead;
    ReadShrinks(w.far.relay.value);
  }

  lemma SendsAreNearer(p: Setup, w: World, n: nat, end: bool)
    requires Fine(w) && (n > 0 || end)
    ensures !w.near.fin && w.up.taken + n <= |w.up.source| ==> Nearer(w, ClientSend(w, n, end))
    ensures ServerMaySend(w) && w.down.taken + n <= |w.down.source| ==> Nearer(w, ServerSend(w, n, end))
  {
    FineSends(p, w, n, end);
    hide ClientSend, ServerSend, Fine;
  }

  lemma ConnectIsNearer(p: Setup, w: World)
    requires Inv(p, w) && Fine(w) && ServerConnect(p, w, true) != w
    ensures Nearer(w, ServerConnect(p, w, true))
  {
    FineConnect(p, w);
    hide Inv, Fine, Copies, Flights, Reads;
  }

  lemma ArrivalIsNearer(p: Setup, w: World, n: nat, end: bool)
    requires ValidSetup(p) && Inv(p, w) && (n > 0 || end) && MayArrive(w.up, w.near.sent, w.near.fin, n, end)
    ensures Nearer(w, Next(p, w, DeliverUp(n, end)))
  {
    hide StepData, Left, Up, Down, ValidSetup;
    EarlyEnd(p, w);
    DataKeepsSender(p, w, w.near.sent[w.up.arrived..w.up.arrived + n], end);
    hide Inv;
  }

  lemma ReturnIsNearer(p: Setup, w: World, n: nat, end: bool)
    requires (n > 0 || end) && MayArrive(w.down, DownSent(w.far), DownFin(w.far), n, end)
    ensures Nearer(w, Next(p, w, DeliverDown(n, end)))
  {
    hide Feed, Left;
    FeedKeepsRest(w.near, DownSent(w.far)[w.down.arrived..w.down.arrived + n], end);
  }

  lemma EarlyEnd(p: Setup, w: World)
    requires Inv(p, w)
    ensures w.far.relay.None? ==> !w.near.fin
  {}

  lemma CarryingOnIsNearer(p: Setup, w: World, e: PassThrough.Event)
    requires ValidSetup(p) && Inv(p, w) && Fine(w) && CarriesOn(e) && Next(p, w, e) != w
    ensures Nearer(w, Next(p, w, e))
  {
    hide ClientRead, ClientSend, ServerSend, ServerConnect, ServerRead, StepData, Feed, Inv, ValidSetup, Nearer, Fine;
    match e {
      case ClientReads => ClientReadIsNearer(p, w);
      case ClientWrites(n) =>
        if n > 0 {
          SendsAreNearer(p, w, n, false);
        }
      case ClientEnds => SendsAreNearer(p, w, 0, true);
      case ServerConnects(_) => ConnectIsNearer(p, w);
      case ServerReads => ServerReadIsNearer(w);
      case ServerWrites(n) =>
        if n > 0 {
          SendsAreNearer(p, w, n, false);
        }
      case ServerEnds => SendsAreNearer(p, w, 0, true);
      case DeliverUp(n, end) =>
        if MayArrive(w.up, w.near.sent, w.near.fin, n, end) {
          ArrivalIsNearer(p, w, n, end);
        }
      case DeliverDown(n, end) =>
        if MayArrive(w.down, DownSent(w.far), DownFin(w.far), n, end) {
          ReturnIsNearer(p, w, n, end);
        }
    }
  }

  lemma CarryingOnSendsNothingNew(p: Setup, w: World, e: PassThrough.Event)
    requires CarriesOn(e)
    ensures var r := Next(p, w, e);
            && r.up.source == w.up.source && r.up.ended == w.up.ended
            && r.down.source == w.down.source && r.down.ended == w.down.ended
  {
    hide StepData, Feed, Fail, Unread, SplitHead, Readable, ReadResult, AfterRead, Accepts, MayCopy, MayFinish,
        MayArrive;
    SourceStep(p, w, e);
    assert w.up.source + [] == w.up.source && w.down.source + [] == w.down.source;
    hide Next;
  }

  lemma RunSnoc(p: Setup, es: seq<PassThrough.Event>, e: PassThrough.Event)
    ensures PassThrough.Run(p, es + [e]) == Next(p, PassThrough.Run(p, es), e)
  {
    hide Next;
    assert (es + [e])[..|es|] == es;
  }

  /** more brings the run es to its end, with nothing sent by either program on the way. */
  ghost predicate Completes(p: Setup, es: seq<PassThrough.Event>, more: seq<PassThrough.Event>) {
    var w, r := PassThrough.Run(p, es), PassThrough.Run(p, es + more);
    && (forall e <- more :: CarriesOn(e)) && Done(r)
    && r.up.source == w.up.source && r.up.ended == w.up.ended
    && r.down.source == w.down.source && r.down.ended == w.down.ended
  }

  /** One more step, and what is then left to do. */
  lemma OneMore(p: Setup, es: seq<PassThrough.Event>, e: PassThrough.Event)
    requires ValidSetup(p) && Smooth(es) && CarriesOn(e)
    requires Next(p, PassThrough.Run(p, es), e) != PassThrough.Run(p, es)
    ensures Smooth(es + [e]) && Nearer(PassThrough.Run(p, es), PassThrough.Run(p, es + [e]))
    ensures forall rest :: Completes(p, es + [e], rest) ==> Completes(p, es, [e] + rest)
  {
    hide PassThrough.Run, Next, Inv, ValidSetup, Fine, Done, CarriesOn, Nearer, Harmless;
    var w := PassThrough.Run(p, es);
    PassThrough.RunKeeps(p, es);
    SmoothIsFine(p, es);
    RunSnoc(p, es, e);
    CarryingOnIsNearer(p, w, e);
    CarryingOnSendsNothingNew(p, w, e);
    CarryingOnIsHarmless(e);
    hide Smooth;
    forall rest | Completes(p, es + [e], rest) ensures Completes(p, es, [e] + rest) {
      assert es + ([e] + rest) == (es + [e]) + rest;
    }
  }

  lemma LeftToDo(p: Setup, es: seq<PassThrough.Event>)
    requires ValidSetup(p) && Smooth(es)
    ensures Copies(PassThrough.Run(p, es)) >= 0 && Flights(PassThrough.Run(p, es)) >= 0
  {
    PassThrough.RunKeeps(p, es);
    SmoothIsFine(p, es);
    CountsArePositive(p, PassThrough.Run(p, es));
  }

  lemma NothingMore(p: Setup, es: seq<PassThrough.Event>)
    requires Done(PassThrough.Run(p, es))
    ensures Completes(p, es, [])
  {
    assert es + [] == es;
  }

  /** However the bytes have been cut and delayed: as long as nothing fails, connecting, copying and delivering
      can always be carried on to the point where each side has exactly what the other has sent; and every
      step that changes anything gets nearer to it. */
  lemma {:induction false} AlwaysCompletes(p: Setup, es: seq<PassThrough.Event>) returns (more: seq<PassThrough.Event>)
    requires ValidSetup(p) && Smooth(es)
    ensures Completes(p, es, more)
    decreases Phases(PassThrough.Run(p, es)), Copies(PassThrough.Run(p, es)), Flights(PassThrough.Run(p, es)),
              Reads(PassThrough.Run(p, es))
  {
    LeftToDo(p, es);
    hide PassThrough.Run, Next, ValidSetup, Done, CarriesOn, Phases, Copies, Flights, Reads, Completes, Smooth;
    if e :| CarriesOn(e) && Next(p, PassThrough.Run(p, es), e) != PassThrough.Run(p, es) {
      OneMore(p, es, e);
      LeftToDo(p, es + [e]);
      var rest := AlwaysCompletes(p, es + [e]);
      more := [e] + rest;
    } else {
      RestIsDone(p, es);
      NothingMore(p, es);
      more := [];
    }
  }

  lemma CarryingOnIsHarmless(e: PassThrough.Event)
    requires CarriesOn(e)
    ensures Harmless(e)
  {}

  // ------------------------------------------------------------------------------- failures are told

  /** What the two programs have handed over so far. */
  function BrowserSent(es: seq<PassThrough.Event>): bytes {
    if es == [] then []
    else
      var front, last := es[..|es| - 1], es[|es| - 1];
      BrowserSent(front) + if last.BrowserSends? && BrowserEnds !in front then last.data else []
  }

  function SiteSent(es: seq<PassThrough.Event>): bytes {
    if es == [] then []
    else
      var front, last := es[..|es| - 1], es[|es| - 1];
      SiteSent(front) + if last.SiteSends? && SiteEnds !in front then last.data else []
  }

  lemma {:induction false} SourceIsWhatWasSent(p: Setup, es: seq<PassThrough.Event>)
    ensures var w := PassThrough.Run(p, es);
            && w.up.source == BrowserSent(es) && (w.up.ended <==> BrowserEnds in es)
            && w.down.source == SiteSent(es) && (w.down.ended <==> SiteEnds in es)
  {
    if es != [] {
      var front, last := es[..|es| - 1], es[|es| - 1];
      SourceIsWhatWasSent(p, front);
      SourceStep(p, PassThrough.Run(p, front), last);
      assert es == front + [last];
      assert forall e :: e in es <==> e in front || e == last;
      hide Next;
    }
  }

  lemma SourceStep(p: Setup, w: World, e: PassThrough.Event)
    ensures var r := Next(p, w, e);
            && r.up.source == w.up.source + (if e.BrowserSends? && !w.up.ended then e.data else [])
            && (r.up.ended <==> w.up.ended || e.BrowserEnds?)
            && r.down.source == w.down.source + (if e.SiteSends? && !w.down.ended then e.data else [])
            && (r.down.ended <==> w.down.ended || e.SiteEnds?)
  {
    hide StepData, Step, Feed, Fail, Unread, SplitHead, Readable, ReadResult, AfterRead, Accepts;
    assert w.up.source + [] == w.up.source && w.down.source + [] == w.down.source;
  }

  /** A server that connects too late, when its end of the stream is closed already, gives up without a word. */
  lemma TooLateToAnswer(p: Setup, w: World, ok: bool)
    requires w.server.Waiting? && w.far.relay.Some? && w.far.relay.value.closed
    ensures Next(p, w, ServerConnects(ok)) == w.(server := Refused)
  {}

  /** The client copies only for a site that the server reached, and a refusal makes it fail. */
  lemma {:induction false} RefusalIsReported(p: Setup, es: seq<PassThrough.Event>)
    requires ValidSetup(p)
    ensures var w := PassThrough.Run(p, es);
            && (Started(w.client) ==> ServerConnects(true) in es)
            && (w.server.Refused? && DownFin(w.far) && w.down.cut.None? && DownAtRest(p, w) ==>
                  w.client.Failed? && ServerConnects(false) in es)
  {
    var w := PassThrough.Run(p, es);
    PassThrough.RunKeeps(p, es);
    AnsweredOnlyIfReached(p, es);
    if w.server.Refused? && DownFin(w.far) && w.down.cut.None? && DownAtRest(p, w) {
      AllArrivedDown(p, w);
      assert IsDown(ClientReads);
      ReadIs(p, w);
      RefusalIsRead(p, w);
    }
    hide PassThrough.Run, Up, Down, ValidSetup, Next, ClientRead;
  }

  ghost predicate Told(p: Setup, w: World, es: seq<PassThrough.Event>) {
    && (Answered(w.server) ==> ServerConnects(true) in es)
    && (w.server.Refused? && DownFin(w.far) ==> ServerConnects(false) in es && DownSent(w.far) == p.refused)
  }

  lemma {:induction false} AnsweredOnlyIfReached(p: Setup, es: seq<PassThrough.Event>)
    requires ValidSetup(p)
    ensures Told(p, PassThrough.Run(p, es), es)
  {
    if es != [] {
      hide Next, Inv, ValidSetup, Told;
      var front, last := es[..|es| - 1], es[|es| - 1];
      AnsweredOnlyIfReached(p, front);
      PassThrough.RunKeeps(p, front);
      StillTold(p, PassThrough.Run(p, front), front, last);
      assert es == front + [last];
    }
  }

  lemma StillTold(p: Setup, w: World, es: seq<PassThrough.Event>, e: PassThrough.Event)
    requires ValidSetup(p) && Inv(p, w) && Told(p, w, es)
    ensures Told(p, Next(p, w, e), es + [e])
  {
    hide Next, Inv, ValidSetup, DownSent, DownFin;
    TellingStep(p, w, e);
    assert forall x :: x in es || x == e ==> x in es + [e];
  }

  lemma TellingStep(p: Setup, w: World, e: PassThrough.Event)
    requires ValidSetup(p) && Inv(p, w)
    ensures var r := Next(p, w, e);
            && (Answered(r.server) ==> Answered(w.server) || e == ServerConnects(true))
            && (r.server.Refused? && DownFin(r.far) ==>
                  || (w.server.Refused? && DownFin(w.far) && DownSent(r.far) == DownSent(w.far))
                  || (e == ServerConnects(false) && DownSent(r.far) == p.refused))
  {
    hide Up, Down, StepData, Feed, Fail, ClientRead, ValidSetup;
    match e {
      case ClientReads => ReadingIsNear(p, w);
      case ServerConnects(_) =>
        if w.server.Waiting? {
          NothingSentYet(p, w);
          assert [] + p.refused == p.refused;
        }
      case ServerReads =>
        if w.far.relay.Some? && Readable(w.far.relay.value) {
          ReadKeepsSender(w.far.relay.value);
        }
      case DeliverUp(n, end) =>
        if MayArrive(w.up, w.near.sent, w.near.fin, n, end) {
          EarlyEnd(p, w);
          DataKeepsSender(p, w, w.near.sent[w.up.arrived..w.up.arrived + n], end);
        }
      case BreakUp => BreakKeepsSender(p, w);
      case _ =>
    }
    hide Inv, Readable, ReadResult, AfterRead;
  }

  lemma ReadingIsNear(p: Setup, w: World)
    ensures ClientRead(p, w).server == w.server && ClientRead(p, w).far == w.far
  {
    hide Readable, ReadResult, AfterRead, SplitHead, Accepts, Unread, Fail;
  }

  lemma BreakKeepsSender(p: Setup, w: World)
    ensures var far := Step(p.c, true, true, w.far, Reset);
            DownSent(far) == DownSent(w.far) && DownFin(far) == DownFin(w.far)
  {
    if w.far.relay.Some? {
      FailKeepsRest(w.far.relay.value);
    }
    hide Fail;
  }

  lemma RefusalIsRead(p: Setup, w: World)
    requires ValidSetup(p) && Inv(p, w) && w.server.Refused? && DownSent(w.far) == p.refused && w.down.over
    requires w.down.cut.None? && w.down.arrived == |p.refused| && ClientRead(p, w) == w
    ensures w.client.Failed?
  {
    var s := w.near;
    if w.client.Opening? {
      if !Readable(s) {
        NothingToRead(s);
      } else {
        OpeningAlwaysMoves(p, w);
      }
    }
  }

  lemma OpeningAlwaysMoves(p: Setup, w: World)
    requires w.client.Opening? && Readable(w.near)
    ensures ClientRead(p, w).client != w.client
  {
    if ReadResult(w.near) != [] {
      HeaderStillOpen(w, w.client.buf, ReadResult(w.near));
    }
    hide SplitHead, Accepts, Unread, Fail, Readable, ReadResult, AfterRead;
  }

  lemma CutsStay(p: Setup, w: World, e: PassThrough.Event)
    ensures var r := Next(p, w, e);
            && (w.up.over || w.up.cut.Some? ==> r.up.over || r.up.cut.Some?)
            && (w.down.over || w.down.cut.Some? ==> r.down.over || r.down.cut.Some?)
  {
    hide StepData, Step, Feed, Fail, Unread, SplitHead, Readable, ReadResult, AfterRead, Accepts;
  }

  /** w's client has given up, and has sent no more than before. */
  predicate ClientStopped(w: World, before: World) {
    && w.client.Stopped? && w.near.sent == before.near.sent && w.near.fin == before.near.fin
    && (w.down.over || w.down.cut.Some?)
  }

  predicate ServerStopped(w: World, before: World) {
    && w.server.Halted? && DownSent(w.far) == DownSent(before.far) && DownFin(w.far) == DownFin(before.far)
    && (w.up.over || w.up.cut.Some?)
  }

  lemma AbortsStop(p: Setup, w: World)
    requires Inv(p, w)
    ensures Started(w.client) ==> ClientStopped(Next(p, w, ClientAborts), w)
    ensures w.server.Relaying? ==> ServerStopped(Next(p, w, ServerAborts), w)
  {
    FailKeepsRest(w.near);
    if w.far.relay.Some? {
      FailKeepsRest(w.far.relay.value);
    }
    hide Fail, Up, Down;
  }

  lemma StoppedStaysStopped(p: Setup, w: World, e: PassThrough.Event, before: World)
    requires ClientStopped(w, before)
    ensures ClientStopped(Next(p, w, e), before)
  {
    CutsStay(p, w, e);
    hide StepData, Step;
  }

  lemma HaltedStaysHalted(p: Setup, w: World, e: PassThrough.Event, before: World)
    requires ValidSetup(p) && Inv(p, w) && ServerStopped(w, before)
    ensures ServerStopped(Next(p, w, e), before)
  {
    CutsStay(p, w, e);
    hide Up, Down, StepData, Feed, Fail, ClientRead, ValidSetup;
    match e {
      case ClientReads => ReadingIsNear(p, w);
      case ServerReads =>
        if w.far.relay.Some? && Readable(w.far.relay.value) {
          ReadKeepsSender(w.far.relay.value);
        }
      case DeliverUp(n, end) =>
        if MayArrive(w.up, w.near.sent, w.near.fin, n, end) {
          EarlyEnd(p, w);
          DataKeepsSender(p, w, w.near.sent[w.up.arrived..w.up.arrived + n], end);
        }
      case BreakUp => BreakKeepsSender(p, w);
      case _ =>
    }
    hide Inv, Readable, ReadResult, AfterRead;
  }

  lemma {:induction false} StaysStopped(p: Setup, es: seq<PassThrough.Event>, more: seq<PassThrough.Event>,
                                        before: World)
    requires ValidSetup(p)
    ensures ClientStopped(PassThrough.Run(p, es), before) ==> ClientStopped(PassThrough.Run(p, es + more), before)
    ensures ServerStopped(PassThrough.Run(p, es), before) ==> ServerStopped(PassThrough.Run(p, es + more), before)
  {
    hide PassThrough.Run, Next, ValidSetup, Inv, ClientStopped, ServerStopped;
    if more == [] {
      assert es + more == es;
    } else {
      var front, last := more[..|more| - 1], more[|more| - 1];
      StaysStopped(p, es, front, before);
      RunSnoc(p, es + front, last);
      assert es + more == (es + front) + [last];
      PassThrough.RunKeeps(p, es + front);
      if ClientStopped(PassThrough.Run(p, es + front), before) {
        StoppedStaysStopped(p, PassThrough.Run(p, es + front), last, before);
      }
      if ServerStopped(PassThrough.Run(p, es + front), before) {
        HaltedStaysHalted(p, PassThrough.Run(p, es + front), last, before);
      }
    }
  }

  /** Whoever gives up sends nothing more, whatever happens then, and its reader still gets to see an end. */
  lemma {:induction false} AbortIsFinal(p: Setup, es: seq<PassThrough.Event>, more: seq<PassThrough.Event>)
    requires ValidSetup(p)
    ensures var w, r := PassThrough.Run(p, es), PassThrough.Run(p, es + [ClientAborts] + more);
            Started(w.client) ==>
              && r.client.Stopped? && r.near.sent == w.near.sent && r.near.fin == w.near.fin
              && (Next(p, r, ClientReads) == r ==> r.down.sawEnd)
    ensures var w, r := PassThrough.Run(p, es), PassThrough.Run(p, es + [ServerAborts] + more);
            w.server.Relaying? ==>
              && r.server.Halted? && DownSent(r.far) == DownSent(w.far) && DownFin(r.far) == DownFin(w.far)
              && (Next(p, r, ServerReads) == r ==> r.up.sawEnd)
  {
    var w := PassThrough.Run(p, es);
    PassThrough.RunKeeps(p, es);
    AbortsStop(p, w);
    RunSnoc(p, es, ClientAborts);
    RunSnoc(p, es, ServerAborts);
    StaysStopped(p, es + [ClientAborts], more, w);
    StaysStopped(p, es + [ServerAborts], more, w);
    WhatCameBeforeTheCutIsGiven(p, es + [ClientAborts] + more);
    WhatCameBeforeTheCutIsGiven(p, es + [ServerAborts] + more);
    hide PassThrough.Run, Next, ValidSetup, Inv, DownSent, DownFin;
  }

  /** What each failure does where it can happen: a time-out ends the opening, an error ends a client that copies,
      and a break ends the way down, unless its end has arrived. */
  lemma FailuresTakeEffect(p: Setup, w: World)
    ensures Next(p, w, ClientTimesOut) == if w.client.Opening? then w.(client := Failed) else w
    ensures !Started(w.client) ==> Next(p, w, ClientAborts) == w
    ensures !w.server.Relaying? ==> Next(p, w, ServerAborts) == w
    ensures var r := Next(p, w, BreakDown);
            r.down.over && (w.down.over ==> r == w) && (!w.down.over ==> r.near.closed && r.down.cut.Some?)
    ensures Next(p, w, BreakUp).up.over
  {
    hide StepData, Step, Fail;
    FailTotal(w.near);
  }

  /** Behind the end or the break nothing arrives. */
  lemma NothingArrivesBehindTheEnd(p: Setup, w: World, n: nat, end: bool)
    ensures w.down.over ==> Next(p, w, DeliverDown(n, end)) == w
    ensures w.up.over ==> Next(p, w, DeliverUp(n, end)) == w
  {
    hide StepData, Feed;
  }

  /** Writing to a stream that was reset or lost makes the writer give up; nothing is sent. */
  lemma WritingToAClosedStreamGivesUp(p: Setup, w: World, n: nat)
    ensures w.client.Copying? && w.near.closed && !w.near.fin && MayCopy(w.up, n) ==>
              var r := Next(p, w, ClientWrites(n));
              r.client.Stopped? && r.near.sent == w.near.sent && r.up == w.up
    ensures ServerMaySend(w) && w.far.relay.value.closed && MayCopy(w.down, n) ==>
              var r := Next(p, w, ServerWrites(n));
              r.server.Halted? && DownSent(r.far) == DownSent(w.far) && r.down == w.down
  {}
}
