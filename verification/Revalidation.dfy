/** The client proxy, the server proxy and the origin together: pages change, are pushed, cached, confirmed
    and evicted in any order, and what the browser gets agrees with asking the origin directly. */
module Revalidation {
  import opened Prelude
  import opened PageCache
  import opened CacheAccounting
  import opened CacheInclusion
  import opened Origin
  import opened ClientProxying

  /** What the server proxy makes of the origin's response; None: the origin could not be reached. */
  function Relay(r: Option<Response>): Answer {
    if r.None? then Full(502, [], [])
    else if r.value.status == 304 then Confirmed(r.value.headers)
    else Full(r.value.status, r.value.headers, r.value.body)
  }

  /** An answer, with what the origin held when it handled the request. */
  datatype Handled = Handled(answer: Answer, held: Option<Version>)

  /** A request under way.  After broken connections it may be handled more than once. */
  datatype Fetch = Fetch(
    ask: Ask, entry: Option<Entry>, inm: Option<string>, ims: Option<string>, handled: seq<Handled>)

  datatype Pushed = Pushed(url: string, body: bytes, headers: HeaderList)

  /** What the browser got, and what the origin held when it handled that request, if it did; which request
      under way it ended, if it was not answered at once, and with what answer. */
  datatype Served = Served(
    ask: Ask, reply: Reply, held: Option<Version>, fetch: Option<nat>, answer: Option<Answer>)

  /** ever: what each page has ever been. */
  datatype World = World(site: map<string, Version>, ever: set<(string, bytes)>, cache: CacheVal,
                         fetches: seq<Fetch>, pushes: seq<Pushed>, served: seq<Served>)

  datatype Event =
    | Publish(url: string, version: Version)
    | Remove(url: string)
    | Asked(t: Clock, ask: Ask)
    | Reached(fetch: nat)
    | Unreached(fetch: nat)
    | Ended(t: Clock, fetch: nat, answer: Option<nat>)
    | PushMade(url: string)
    | PushArrives(t: Clock, push: nat, prob: Option<real>)

  datatype Setup = Setup(cache: CacheSetup, library: Library)

  function Initial(): World { World(map[], {}, EMPTY, [], [], []) }

  function Held(w: World, url: string): Option<Version> {
    if url in w.site then Some(w.site[url]) else None
  }

  function AfterAsked(s: Setup, w: World, t: Clock, a: Ask): World {
    var (c, begun) := Begin(s.cache, w.cache, t, a);
    match begun
    case Ready(reply, _) => w.(cache := c, served := w.served + [Served(a, reply, None, None, None)])
    case Sends(entry, inm, ims) => w.(cache := c, fetches := w.fetches + [Fetch(a, entry, inm, ims, [])])
  }

  function AfterReached(s: Setup, w: World, i: nat): World {
    if i >= |w.fetches| then w
    else
      var f := w.fetches[i];
      var held := Held(w, f.ask.url);
      var answer := Relay(Some(Respond(s.library, f.ask.verb, held, f.inm, f.ims)));
      w.(fetches := w.fetches[i := f.(handled := f.handled + [Handled(answer, held)])])
  }

  function AfterEnded(s: Setup, w: World, t: Clock, i: nat, j: Option<nat>): World {
    if i >= |w.fetches| || (j.Some? && j.value >= |w.fetches[i].handled|) then w
    else
      var f := w.fetches[i];
      var h := if j.Some? then Some(f.handled[j.value]) else None;
      var answer := if h.Some? then Some(h.value.answer) else None;
      var (c, reply) := End(s.cache, w.cache, t, f.ask, f.entry, answer);
      w.(cache := c,
         served := w.served + [Served(f.ask, reply, if h.Some? then h.value.held else None, Some(i), answer)])
  }

  function After(s: Setup, w: World, e: Event): World {
    match e
    case Publish(url, v) => w.(site := w.site[url := v], ever := w.ever + {(url, v.body)})
    case Remove(url) => w.(site := w.site - {url})
    case Asked(t, a) => AfterAsked(s, w, t, a)
    case Reached(i) => AfterReached(s, w, i)
    case Unreached(i) =>
      if i >= |w.fetches| then w
      else w.(fetches := w.fetches[i := w.fetches[i].(handled := w.fetches[i].handled + [Handled(Relay(None), None)])])
    case Ended(t, i, j) => AfterEnded(s, w, t, i, j)
    case PushMade(url) =>
      if url in w.site then
        w.(pushes := w.pushes + [Pushed(url, w.site[url].body, VersionHeaders(s.library, w.site[url]))]) else w
    case PushArrives(t, p, prob) =>
      if p < |w.pushes| then
        w.(cache := PushStored(s.cache, w.cache, t, w.pushes[p].url, w.pushes[p].body, w.pushes[p].headers,
                               prob)) else w
  }

  function Run(s: Setup, events: seq<Event>): World {
    if events == [] then Initial() else After(s, Run(s, events[..|events| - 1]), events[|events| - 1])
  }

  // ----------------------------------------------------------------- what the cache holds is genuine

  /** Body and tag came from one response of the origin. */
  ghost predicate Genuine(l: Library, ever: set<(string, bytes)>, e: Entry) {
    e.etag == Some(Tag(l, e.body)) && (e.url, e.body) in ever
  }

  ghost predicate AllGenuine(l: Library, ever: set<(string, bytes)>, es: seq<Entry>) {
    forall e <- es :: Genuine(l, ever, e)
  }

  lemma ExpireGenuine(l: Library, ever: set<(string, bytes)>, ttl: real, c: CacheVal, now: real)
    requires AllGenuine(l, ever, c.entries)
    ensures AllGenuine(l, ever, AfterExpire(ttl, c, now).entries)
  {
    SelectMembers(c.entries, now - ttl, false);
  }

  lemma WithoutMembers(es: seq<Entry>, i: nat)
    requires i < |es|
    ensures forall e <- Without(es, i) :: e in es
  {}

  lemma GetGenuine(l: Library, ever: set<(string, bytes)>, ttl: real, c: CacheVal, url: string, now: real)
    requires AllGenuine(l, ever, c.entries)
    ensures AllGenuine(l, ever, AfterGet(ttl, c, url, now).entries)
  {
    ExpireGenuine(l, ever, ttl, c, now);
    var c1 := AfterExpire(ttl, c, now);
    var i := IndexOf(c1.entries, url);
    if i < |c1.entries| {
      WithoutMembers(c1.entries, i);
      assert Genuine(l, ever, c1.entries[i]);
    }
    hide AfterExpire, Tag;
  }

  lemma {:induction false} EvictMembers(capacity: nat, c: CacheVal)
    ensures forall e <- Evict(capacity, c).entries :: e in c.entries
    decreases |c.entries|
  {
    if c.used > capacity && c.entries != [] {
      EvictMembers(capacity, EvictOne(c));
    }
  }

  lemma PutGenuine(l: Library, ever: set<(string, bytes)>, capacity: nat, ttl: real, c: CacheVal, e: Entry, now: real,
                   stamp: real)
    requires AllGenuine(l, ever, c.entries) && Genuine(l, ever, e)
    ensures AllGenuine(l, ever, AfterPut(capacity, ttl, c, e, now, stamp).entries)
  {
    ExpireGenuine(l, ever, ttl, c, now);
    var c1 := AfterExpire(ttl, c, now);
    if Size(e) <= capacity {
      var i := IndexOf(c1.entries, e.url);
      if i < |c1.entries| {
        WithoutMembers(c1.entries, i);
      }
      var full := Attach(Detach(c1, e.url), Stamp(c1, e, stamp));
      assert forall x <- full.entries :: x in c1.entries || x == Stamp(c1, e, stamp);
      EvictMembers(capacity, full);
    }
    hide AfterExpire, Tag, Evict;
  }

  lemma FirstHeader(l: Library, v: Version)
    ensures GetHeader(VersionHeaders(l, v), "etag") == Some(Tag(l, v.body))
  {
    var h := VersionHeaders(l, v);
    assert h[1..][0] == ("ETag", Tag(l, v.body));
    assert Lower("Content-Type") != Lower("etag") by {
      assert |Lower("Content-Type")| != |Lower("etag")|;
    }
    assert Lower("ETag") == Lower("etag");
  }

  lemma NewIsGenuine(l: Library, ever: set<(string, bytes)>, url: string, v: Version, pushed: bool, prob: Option<real>)
    requires (url, v.body) in ever
    ensures Genuine(l, ever, NewEntry(url, v.body, VersionHeaders(l, v), pushed, prob))
  {
    FirstHeader(l, v);
    hide VersionHeaders, GetHeader, AsMap, Tag;
  }

  // ------------------------------------------------------------------------------ requests under way

  ghost predicate HandledOk(l: Library, ever: set<(string, bytes)>, f: Fetch, h: Handled) {
    && (h.held.Some? ==> (f.ask.url, h.held.value.body) in ever)
    && (h.answer == Full(502, [], []) || h.answer == Relay(Some(Respond(l, f.ask.verb, h.held, f.inm, f.ims))))
  }

  ghost predicate FetchOk(l: Library, ever: set<(string, bytes)>, f: Fetch) {
    && (if f.entry.Some? then
          && Genuine(l, ever, f.entry.value) && f.entry.value.url == f.ask.url
          && f.inm == Validator(f.ask.inm, f.entry.value.etag)
        else f.inm == f.ask.inm && f.ims == f.ask.ims)
    && forall h <- f.handled :: HandledOk(l, ever, f, h)
  }

  /** No two bodies that one page ever had share a digest. */
  ghost predicate TagsIdentify(l: Library, ever: set<(string, bytes)>) {
    forall url, x, y :: (url, x) in ever && (url, y) in ever && l.digest(x) == l.digest(y) ==> x == y
  }

  /** A full or confirmed page is what the origin held when it handled the request. */
  ghost predicate Agrees(x: Served) {
    x.ask.verb.Get? && x.reply.status == 200 && (x.reply.source.FromOrigin? || x.reply.source.Revalidated?)
        && x.ask.inm.None? ==>
      x.held.Some? && x.reply.body == x.held.value.body
  }

  /** Whatever page is shown, the origin had it at some time. */
  ghost predicate WasOnce(ever: set<(string, bytes)>, x: Served) {
    x.ask.verb.Get? && x.reply.status == 200 ==> (x.ask.url, x.reply.body) in ever
  }

  lemma SameTagSameBody(l: Library, ever: set<(string, bytes)>, url: string, x: bytes, y: bytes)
    requires LawfulLibrary(l) && TagsIdentify(l, ever) && (url, x) in ever && (url, y) in ever && Tag(l, x) == Tag(l, y)
    ensures x == y
  {
    TagIsPlain(l, x);
    TagIsPlain(l, y);
    hide Tag, Plain;
  }

  /** 304 to the cache's own tag means that the page has not changed. */
  lemma ConfirmedIsCurrent(l: Library, ever: set<(string, bytes)>, f: Fetch, h: Handled)
    requires LawfulLibrary(l) && TagsIdentify(l, ever) && FetchOk(l, ever, f) && h in f.handled
    requires h.answer.Confirmed? && f.entry.Some? && f.ask.inm.None?
    ensures h.held.Some? && h.held.value.body == f.entry.value.body
  {
    var e := f.entry.value;
    assert HandledOk(l, ever, f, h);
    TagIsPlain(l, e.body);
    assert f.inm == Some(Tag(l, e.body));
    hide Tag, Plain;
    var v := h.held.value;
    MatchesOneTag(l, f.inm.value, f.ims, Tag(l, v.body), v.mtime);
    hide NotModified, VersionHeaders;
    SameTagSameBody(l, ever, f.ask.url, e.body, v.body);
  }

  lemma FullIsCurrent(l: Library, ever: set<(string, bytes)>, f: Fetch, h: Handled)
    requires FetchOk(l, ever, f) && h in f.handled
    requires h.answer.Full? && h.answer.status == 200 && f.ask.verb.Get?
    ensures h.held.Some? && h.answer.body == h.held.value.body && h.answer.headers == VersionHeaders(l, h.held.value)
    ensures (f.ask.url, h.answer.body) in ever
  {
    assert HandledOk(l, ever, f, h);
    hide NotModified, VersionHeaders, Genuine;
  }

  lemma EndAgrees(s: Setup, ever: set<(string, bytes)>, c: CacheVal, t: Clock, f: Fetch, i: nat, j: Option<nat>)
    requires LawfulLibrary(s.library) && TagsIdentify(s.library, ever) && FetchOk(s.library, ever, f)
    requires AllGenuine(s.library, ever, c.entries) && (j.Some? ==> j.value < |f.handled|)
    ensures var h := if j.Some? then Some(f.handled[j.value]) else None;
            var answer := if h.Some? then Some(h.value.answer) else None;
            var (c1, reply) := End(s.cache, c, t, f.ask, f.entry, answer);
            var x := Served(f.ask, reply, if h.Some? then h.value.held else None, Some(i), answer);
            AllGenuine(s.library, ever, c1.entries) && Agrees(x) && WasOnce(ever, x)
  {
    hide AfterGet, AfterPut, Cacheable, NewEntry, AllGenuine, TagsIdentify, LawfulLibrary;
    GetGenuine(s.library, ever, s.cache.ttl, c, f.ask.url, t.op);
    if j.Some? {
      var h := f.handled[j.value];
      if h.answer.Confirmed? {
        if f.entry.Some? && f.ask.inm.None? {
          ConfirmedIsCurrent(s.library, ever, f, h);
        }
      } else if h.answer.status == 200 && f.ask.verb.Get? {
        FullIsCurrent(s.library, ever, f, h);
        NewIsGenuine(s.library, ever, f.ask.url, h.held.value, f.ask.prefetch, None);
        var e := NewEntry(f.ask.url, h.answer.body, h.answer.headers, f.ask.prefetch, None);
        PutGenuine(s.library, ever, s.cache.capacity, s.cache.ttl, c, e, t.op, t.stamp);
      } else {
        NeverStored(f.ask.verb, h.answer.status, h.answer.headers);
      }
    }
    hide Validator, Tag, HandledOk;
  }

  lemma NeverStored(verb: Verb, status: nat, headers: HeaderList)
    ensures !verb.Get? || status != 200 ==> !Cacheable(verb, status, headers)
  {}

  lemma BeginAgrees(s: Setup, ever: set<(string, bytes)>, c: CacheVal, t: Clock, a: Ask)
    requires AllGenuine(s.library, ever, c.entries)
    ensures var (c1, begun) := Begin(s.cache, c, t, a);
            && AllGenuine(s.library, ever, c1.entries)
            && (begun.Ready? ==>
                  && Agrees(Served(a, begun.reply, None, None, None))
                  && WasOnce(ever, Served(a, begun.reply, None, None, None)))
            && (begun.Sends? ==> FetchOk(s.library, ever, Fetch(a, begun.entry, begun.inm, begun.ims, [])))
  {
    var c1 := if a.verb.Other? then c else AfterExpire(s.cache.ttl, c, t.peek);
    ExpireGenuine(s.library, ever, s.cache.ttl, c, t.peek);
    GetGenuine(s.library, ever, s.cache.ttl, c1, a.url, t.op);
    var entry := Copy(c1, a.verb, a.url);
    if entry.Some? {
      assert Genuine(s.library, ever, entry.value);
      var e := entry.value.(pushed := true, hits := 0);
      PutGenuine(s.library, ever, s.cache.capacity, s.cache.ttl, c1, e, t.op, t.stamp);
    }
    hide AfterGet, AfterPut, AfterExpire, AllGenuine, Tag;
  }

  // ------------------------------------------------------------------------------------------- runs

  ghost predicate PushesOk(l: Library, ever: set<(string, bytes)>, pushes: seq<Pushed>) {
    forall p <- pushes :: (p.url, p.body) in ever && GetHeader(p.headers, "etag") == Some(Tag(l, p.body))
  }

  ghost predicate SiteOk(site: map<string, Version>, ever: set<(string, bytes)>) {
    forall url <- site :: (url, site[url].body) in ever
  }

  ghost predicate FetchesOk(l: Library, ever: set<(string, bytes)>, fetches: seq<Fetch>) {
    forall f <- fetches :: FetchOk(l, ever, f)
  }

  ghost predicate ServedOk(ever: set<(string, bytes)>, served: seq<Served>) {
    forall x <- served :: Agrees(x) && WasOnce(ever, x)
  }

  ghost predicate Inv(s: Setup, ever: set<(string, bytes)>, w: World) {
    && w.ever <= ever && SiteOk(w.site, w.ever)
    && AllGenuine(s.library, ever, w.cache.entries)
    && FetchesOk(s.library, ever, w.fetches)
    && PushesOk(s.library, ever, w.pushes)
    && ServedOk(ever, w.served)
  }

  lemma AskedKeeps(s: Setup, ever: set<(string, bytes)>, w: World, t: Clock, a: Ask)
    requires Inv(s, ever, w)
    ensures Inv(s, ever, AfterAsked(s, w, t, a))
  {
    BeginAgrees(s, ever, w.cache, t, a);
    hide Begin, AllGenuine, FetchOk, Agrees, WasOnce, SiteOk, PushesOk;
  }

  lemma ReachedKeeps(s: Setup, ever: set<(string, bytes)>, w: World, i: nat)
    requires Inv(s, ever, w) && i < |w.fetches|
    ensures Inv(s, ever, AfterReached(s, w, i))
  {
    var f := w.fetches[i];
    assert FetchOk(s.library, ever, f);
    var held := Held(w, f.ask.url);
    var answer := Relay(Some(Respond(s.library, f.ask.verb, held, f.inm, f.ims)));
    MoreHandled(s.library, ever, f, Handled(answer, held));
    hide FetchOk, AllGenuine, ServedOk, PushesOk, Respond;
  }

  lemma MoreHandled(l: Library, ever: set<(string, bytes)>, f: Fetch, h: Handled)
    requires FetchOk(l, ever, f) && HandledOk(l, ever, f, h)
    ensures FetchOk(l, ever, f.(handled := f.handled + [h]))
  {
    hide Respond, Genuine, Validator;
  }

  lemma UnreachedKeeps(s: Setup, ever: set<(string, bytes)>, w: World, i: nat)
    requires Inv(s, ever, w) && i < |w.fetches|
    ensures Inv(s, ever, After(s, w, Unreached(i)))
  {
    assert FetchOk(s.library, ever, w.fetches[i]);
    MoreHandled(s.library, ever, w.fetches[i], Handled(Relay(None), None));
    hide FetchOk, AllGenuine, ServedOk, PushesOk, SiteOk;
  }

  lemma EndedKeeps(s: Setup, ever: set<(string, bytes)>, w: World, t: Clock, i: nat, j: Option<nat>)
    requires LawfulLibrary(s.library) && TagsIdentify(s.library, ever) && Inv(s, ever, w)
    ensures Inv(s, ever, AfterEnded(s, w, t, i, j))
  {
    if i < |w.fetches| && (j.Some? ==> j.value < |w.fetches[i].handled|) {
      assert FetchOk(s.library, ever, w.fetches[i]);
      EndAgrees(s, ever, w.cache, t, w.fetches[i], i, j);
    }
    hide End, AllGenuine, FetchesOk, Agrees, WasOnce, SiteOk, PushesOk, TagsIdentify, LawfulLibrary;
  }

  lemma PublishKeeps(s: Setup, ever: set<(string, bytes)>, w: World, url: string, v: Version)
    requires Inv(s, ever, w) && (url, v.body) in ever
    ensures Inv(s, ever, After(s, w, Publish(url, v)))
  {
    hide AllGenuine, FetchesOk, ServedOk, PushesOk;
  }

  lemma PushMadeKeeps(s: Setup, ever: set<(string, bytes)>, w: World, url: string)
    requires Inv(s, ever, w)
    ensures Inv(s, ever, After(s, w, PushMade(url)))
  {
    if url in w.site {
      FirstHeader(s.library, w.site[url]);
    }
    hide AllGenuine, FetchesOk, ServedOk, VersionHeaders, GetHeader, Tag;
  }

  lemma PushArrivesKeeps(s: Setup, ever: set<(string, bytes)>, w: World, t: Clock, p: nat, prob: Option<real>)
    requires Inv(s, ever, w)
    ensures Inv(s, ever, After(s, w, PushArrives(t, p, prob)))
  {
    if p < |w.pushes| {
      var x := w.pushes[p];
      assert x in w.pushes;
      var e := NewEntry(x.url, x.body, x.headers, true, prob);
      assert Genuine(s.library, ever, e);
      PutGenuine(s.library, ever, s.cache.capacity, s.cache.ttl, w.cache, e, t.op, t.stamp);
    }
    hide AllGenuine, FetchesOk, ServedOk, PushesOk, SiteOk, AfterPut;
  }

  lemma StepKeeps(s: Setup, ever: set<(string, bytes)>, w: World, e: Event)
    requires LawfulLibrary(s.library) && TagsIdentify(s.library, ever) && Inv(s, ever, w)
    requires After(s, w, e).ever <= ever
    ensures Inv(s, ever, After(s, w, e))
  {
    match e {
      case Publish(url, v) =>
        assert (url, v.body) in After(s, w, e).ever;
        PublishKeeps(s, ever, w, url, v);
      case Asked(t, a) => AskedKeeps(s, ever, w, t, a);
      case Reached(i) =>
        if i < |w.fetches| {
          ReachedKeeps(s, ever, w, i);
        }
      case Unreached(i) =>
        if i < |w.fetches| {
          UnreachedKeeps(s, ever, w, i);
        }
      case Ended(t, i, j) => EndedKeeps(s, ever, w, t, i, j);
      case PushMade(url) => PushMadeKeeps(s, ever, w, url);
      case PushArrives(t, p, prob) => PushArrivesKeeps(s, ever, w, t, p, prob);
      case Remove(url) => RemoveKeeps(s, ever, w, url);
    }
    hide Inv, AfterAsked, AfterEnded, AfterReached;
  }

  lemma RemoveKeeps(s: Setup, ever: set<(string, bytes)>, w: World, url: string)
    requires Inv(s, ever, w)
    ensures Inv(s, ever, After(s, w, Remove(url)))
  {
    hide AllGenuine, FetchesOk, ServedOk, PushesOk;
  }

  lemma EverGrows(s: Setup, w: World, e: Event)
    ensures w.ever <= After(s, w, e).ever
  {
    hide Begin, End, Respond;
  }

  lemma {:induction false} RunKeeps(s: Setup, events: seq<Event>, ever: set<(string, bytes)>)
    requires LawfulLibrary(s.library) && TagsIdentify(s.library, ever) && Run(s, events).ever <= ever
    ensures Inv(s, ever, Run(s, events))
  {
    if events != [] {
      var w := Run(s, events[..|events| - 1]);
      EverGrows(s, w, events[|events| - 1]);
      RunKeeps(s, events[..|events| - 1], ever);
      StepKeeps(s, ever, w, events[|events| - 1]);
      hide Inv, After, TagsIdentify, LawfulLibrary;
    }
  }

  /** Over every run in which tags identify the bodies a page has had: a full or confirmed page served to a
      browser that sent no tag of its own is the page that the origin held when it handled the request, and
      every page served, prefetched and stale ones included, is one that the origin did hold at some time. */
  lemma {:induction false} AgreesWithTheOrigin(s: Setup, events: seq<Event>, i: nat)
    requires LawfulLibrary(s.library) && TagsIdentify(s.library, Run(s, events).ever) && i < |Run(s, events).served|
    ensures Agrees(Run(s, events).served[i])
    ensures WasOnce(Run(s, events).ever, Run(s, events).served[i])
  {
    RunKeeps(s, events, Run(s, events).ever);
    hide Run, TagsIdentify, LawfulLibrary, Agrees, WasOnce;
  }

  // ---------------------------------------------------------------------- a browser's own validators

  /** With an If-None-Match of its own in the request, a browser gets the right page if the cache answers on
      the strength of a confirmation. */
  ghost predicate RightIfConfirmed(s: Setup, c: CacheVal, t: Clock, e: Entry, inm: string, ims: Option<string>,
                                   v: Version)
  {
    var a := ClientProxying.Ask(Get, e.url, Some(inm), ims, false);
    var sent := Validator(a.inm, e.etag);
    var answer := Relay(Some(Respond(s.library, Get, Some(v), sent, Validator(ims, e.lastModified))));
    var reply := End(s.cache, c, t, a, Some(e), Some(answer)).1;
    reply.source.Revalidated? ==> reply.body == v.body
  }

  /** An If-None-Match that a page with this body meets. */
  predicate Meets(l: Library, inm: string, body: bytes) { "*" in Tags(inm) || Tag(l, body) in Tags(inm) }

  /** The browser's header replaces the cache's, whatever it says.  The page shown is then right, whatever the
      origin holds, if and only if no other body that the page may have meets it. */
  lemma OwnTagsAreSafeExactlyWhen(s: Setup, c: CacheVal, t: Clock, e: Entry, inm: string, ims: Option<string>,
                                  bodies: set<bytes>)
    ensures (forall v: Version :: v.body in bodies ==> RightIfConfirmed(s, c, t, e, inm, ims, v))
       <==> (forall b <- bodies :: Meets(s.library, inm, b) ==> b == e.body)
  {
    forall v: Version ensures RightIfConfirmed(s, c, t, e, inm, ims, v) <==>
        (Meets(s.library, inm, v.body) ==> v.body == e.body) {
      OwnTagsDecide(s, c, t, e, inm, ims, v);
    }
    hide RightIfConfirmed, Meets;
    if forall v: Version :: v.body in bodies ==> RightIfConfirmed(s, c, t, e, inm, ims, v) {
      forall b <- bodies ensures Meets(s.library, inm, b) ==> b == e.body {
        assert RightIfConfirmed(s, c, t, e, inm, ims, Version(b, 0, "", false));
      }
    }
  }

  lemma OwnTagsDecide(s: Setup, c: CacheVal, t: Clock, e: Entry, inm: string, ims: Option<string>, v: Version)
    ensures RightIfConfirmed(s, c, t, e, inm, ims, v) <==> (Meets(s.library, inm, v.body) ==> v.body == e.body)
  {
    hide Tags, Tag, VersionHeaders, AfterGet, AfterPut, Cacheable;
  }

  // a run that shows a wrong page

  lemma {:induction false} TooShort(s: string, part: string)
    requires |s| < |part|
    ensures !Contains(s, part)
  {
    if s != "" {
      TooShort(s[1..], part);
    }
  }

  /** Pages of this origin may be cached. */
  lemma NormallyCacheable(l: Library, v: Version)
    ensures Cacheable(Get, 200, VersionHeaders(l, v))
  {
    var h := VersionHeaders(l, v);
    DifferentNames();
    assert GetHeader(h[4..], "set-cookie") == None && GetHeader(h[4..], "cache-control") == None by {
      if v.standIn {
        assert h[4..] == [("X-Stand-In", "1")] && h[4..][1..] == [];
      } else {
        assert h[4..] == [];
      }
    }
    hide Lower;
    assert h[3..][0] == ("Cache-Control", "no-cache") && h[3..][1..] == h[4..];
    assert h[2..][0].0 == "Last-Modified" && h[2..][1..] == h[3..];
    assert h[1..][0].0 == "ETag" && h[1..][1..] == h[2..];
    assert h[0].0 == "Content-Type";
    assert GetHeader(h[3..], "cache-control") == Some("no-cache");
    assert GetHeader(h[2..], "cache-control") == GetHeader(h[3..], "cache-control");
    assert GetHeader(h[1..], "cache-control") == GetHeader(h[2..], "cache-control");
    assert GetHeader(h[2..], "set-cookie") == GetHeader(h[3..], "set-cookie") == GetHeader(h[4..], "set-cookie");
    assert GetHeader(h[1..], "set-cookie") == GetHeader(h[2..], "set-cookie");
    NoStoreIsNotNoCache();
  }

  lemma DifferentNames()
    ensures Lower("Cache-Control") == Lower("cache-control") != Lower("set-cookie")
    ensures forall name <- ["Content-Type", "ETag", "Last-Modified", "X-Stand-In"] ::
              Lower(name) != Lower("cache-control") && Lower(name) != Lower("set-cookie")
  {
    assert Lower("Cache-Control") == "cache-control" && Lower("cache-control") == "cache-control";
    assert |Lower("set-cookie")| == 10;
    assert |Lower("Content-Type")| == 12 && |Lower("ETag")| == 4;
    assert Lower("Last-Modified")[0] == 'l' && Lower("cache-control")[0] == 'c';
    assert |Lower("Last-Modified")| == 13;
    assert Lower("X-Stand-In")[0] == 'x' && Lower("set-cookie")[0] == 's';
  }

  lemma NoStoreIsNotNoCache()
    ensures !Contains(Lower("no-cache"), "no-store")
  {
    var s := Lower("no-cache");
    assert s[3] == 'c';
    TooShort(s[1..], "no-store");
  }

  /** The cache holds one page, which the reader fetched himself. */
  ghost predicate HoldsOnly(c: CacheVal, e: Entry) { c.entries == [e] && !e.pushed }

  lemma FirstPut(s: CacheSetup, e: Entry, now: real, stamp: real)
    requires Size(e) <= s.capacity && !e.pushed
    ensures HoldsOnly(AfterPut(s.capacity, s.ttl, EMPTY, e, now, stamp), e.(storedAt := stamp))
  {
    assert AfterExpire(s.ttl, EMPTY, now) == EMPTY by {
      assert Select([], now - s.ttl, false) == [] && Select([], now - s.ttl, true) == [];
    }
    hide AfterExpire;
    assert [] + [e.(storedAt := stamp)] == [e.(storedAt := stamp)];
  }

  lemma OwnPageStays(ttl: real, c: CacheVal, e: Entry, now: real)
    requires HoldsOnly(c, e)
    ensures HoldsOnly(AfterExpire(ttl, c, now), e)
  {
    SelectOne(e, now - ttl, false);
    SelectOne(e, now - ttl, true);
    hide Select;
    assert ExpireAll(c, []) == c;
  }

  lemma SelectOne(e: Entry, cutoff: real, stale: bool)
    ensures Select([e], cutoff, stale) == if Stale(e, cutoff) == stale then [e] else []
  {
    hide Stale;
    assert [e][1..] == [];
    assert [e] + [] == [e];
    assert Select([], cutoff, stale) == [];
  }

  lemma RunSnoc(s: Setup, events: seq<Event>, e: Event)
    ensures Run(s, events + [e]) == After(s, Run(s, events), e)
  {
    hide After;
    assert (events + [e])[..|events|] == events;
  }

  /** The page is fetched once and cached. */
  lemma FetchedOnce(s: Setup, url: string, a: Version, t: Clock)
    requires |a.body| <= s.cache.capacity
    ensures var ask := ClientProxying.Ask(Get, url, None, None, false);
            var w1 := After(s, Initial(), Publish(url, a));
            var w2 := After(s, w1, Asked(t, ask));
            var w3 := After(s, w2, Reached(0));
            var w := After(s, w3, Ended(t, 0, Some(0)));
            var e := NewEntry(url, a.body, VersionHeaders(s.library, a), false, None);
            && HoldsOnly(w.cache, e.(storedAt := t.stamp))
            && |w.fetches| == 1 && |w.served| == 1
  {
    NormallyCacheable(s.library, a);
    FirstPut(s.cache, NewEntry(url, a.body, VersionHeaders(s.library, a), false, None), t.op, t.stamp);
    assert AfterExpire(s.cache.ttl, EMPTY, t.peek) == EMPTY;
    hide AfterExpire, AfterPut, VersionHeaders, NewEntry, Cacheable, HoldsOnly;
  }

  predicate Shows(x: Served, ask: Ask, reply: Reply, held: Option<Version>) {
    x.ask == ask && x.reply == reply && x.held == held
  }

  /** It changes, and a browser asks with a header that the new page meets. */
  lemma ServedWrongly(s: Setup, w: World, e: Entry, b: Version, inm: string, t: Clock)
    requires HoldsOnly(w.cache, e) && e.body != b.body && Meets(s.library, inm, b.body)
    ensures var ask := ClientProxying.Ask(Get, e.url, Some(inm), None, false);
            var n := |w.fetches|;
            var w1 := After(s, After(s, w, Publish(e.url, b)), Asked(t, ask));
            var after := After(s, After(s, w1, Reached(n)), Ended(t, n, Some(0)));
            after.served != [] && after.served[..|after.served| - 1] == w.served
                && Shows(after.served[|w.served|], ask, Reply(200, Stored(e.headers), e.body, Revalidated), Some(b))
  {
    OwnPageStays(s.cache.ttl, w.cache, e, t.peek);
    hide AfterExpire, AfterGet, AfterPut, VersionHeaders, Tag, Tags;
  }

  /** A whole run in which a browser gets a page that the origin no longer holds, marked as confirmed: the
      wildcard or the new page's own tag is enough. */
  lemma WrongPageIsServed(s: Setup, url: string, a: Version, b: Version, inm: string, t: Clock)
    requires |a.body| <= s.cache.capacity && a.body != b.body && Meets(s.library, inm, b.body)
    ensures exists events, i: nat ::
              && i < |Run(s, events).served|
              && Shows(Run(s, events).served[i], ClientProxying.Ask(Get, url, Some(inm), None, false),
                       Reply(200, Stored(AsMap(VersionHeaders(s.library, a))), a.body, Revalidated), Some(b))
  {
    hide Run, After, HoldsOnly, NewEntry, VersionHeaders, Meets;
    var ask1, ask2 := ClientProxying.Ask(Get, url, None, None, false),
        ClientProxying.Ask(Get, url, Some(inm), None, false);
    var e0: seq<Event> := [];
    var e1 := e0 + [Publish(url, a)];
    var e2 := e1 + [Asked(t, ask1)];
    var e3 := e2 + [Reached(0)];
    var e4 := e3 + [Ended(t, 0, Some(0))];
    var e5 := e4 + [Publish(url, b)];
    var e6 := e5 + [Asked(t, ask2)];
    var e7 := e6 + [Reached(1)];
    var e8 := e7 + [Ended(t, 1, Some(0))];
    RunNothing(s);
    RunSnoc(s, e0, Publish(url, a));
    RunSnoc(s, e1, Asked(t, ask1));
    RunSnoc(s, e2, Reached(0));
    RunSnoc(s, e3, Ended(t, 0, Some(0)));
    RunSnoc(s, e4, Publish(url, b));
    RunSnoc(s, e5, Asked(t, ask2));
    RunSnoc(s, e6, Reached(1));
    RunSnoc(s, e7, Ended(t, 1, Some(0)));
    FetchedOnce(s, url, a, t);
    var e := NewEntry(url, a.body, VersionHeaders(s.library, a), false, None).(storedAt := t.stamp);
    NewHasBody(url, a.body, VersionHeaders(s.library, a));
    ServedWrongly(s, Run(s, e4), e, b, inm, t);
    var reply := Reply(200, Stored(AsMap(VersionHeaders(s.library, a))), a.body, Revalidated);
    assert Shows(Run(s, e8).served[|Run(s, e4).served|], ask2, reply, Some(b));
  }

  lemma RunNothing(s: Setup)
    ensures Run(s, []) == Initial()
  {}

  lemma NewHasBody(url: string, body: bytes, headers: HeaderList)
    ensures NewEntry(url, body, headers, false, None).headers == AsMap(headers)
    ensures NewEntry(url, body, headers, false, None).body == body
        && NewEntry(url, body, headers, false, None).url == url
  {}

  // ------------------------------------------------------------------------------ the oracle's prefetch

  lemma {:induction false} SelectAppend(a: seq<Entry>, b: seq<Entry>, cutoff: real, stale: bool)
    ensures Select(a + b, cutoff, stale) == Select(a, cutoff, stale) + Select(b, cutoff, stale)
  {
    hide Stale;
    if a == [] {
      assert a + b == b;
    } else {
      assert (a + b)[0] == a[0] && (a + b)[1..] == a[1..] + b;
      SelectAppend(a[1..], b, cutoff, stale);
      var rest := Select(a[1..], cutoff, stale) + Select(b, cutoff, stale);
      assert [a[0]] + rest == ([a[0]] + Select(a[1..], cutoff, stale)) + Select(b, cutoff, stale);
    }
  }

  lemma {:induction false} IndexOfLast(front: seq<Entry>, e: Entry)
    requires forall x <- front :: x.url != e.url
    ensures IndexOf(front + [e], e.url) == |front|
  {
    if front != [] {
      assert front[0] in front;
      assert (front + [e])[1..] == front[1..] + [e];
      IndexOfLast(front[1..], e);
    }
  }

  /** A held page that is stored again, by whatever clock readings: it becomes the most recent entry and
      keeps its reads; if it has just expired it had none. */
  lemma PutAgain(capacity: nat, ttl: real, c: CacheVal, e: Entry, now: real, stamp: real)
    requires Distinct(c.entries) && c.used <= capacity && e in c.entries && Size(e) <= capacity
    requires Bal(c)
    ensures var after := AfterPut(capacity, ttl, c, e.(pushed := true, hits := 0), now, stamp).entries;
            && after != [] && after[|after| - 1] == e.(pushed := true, storedAt := stamp)
            && forall x <- after[..|after| - 1] :: x.url != e.url
  {
    var c1, again := AfterExpire(ttl, c, now), e.(pushed := true, hits := 0);
    ExpireBalanced(ttl, c, now);
    ExpireDistinct(ttl, c, now);
    StampedAgain(ttl, c, e, now, stamp);
    DetachBalanced(c1, e.url);
    hide AfterExpire, Stamp, Bal, Distinct, Detach;
    PutKeepsAndEvictsLeast(capacity, c1, again, stamp);
    var all := Detach(c1, e.url).entries + [Stamp(c1, again, stamp)];
    var after := Store(capacity, c1, again, stamp).entries;
    LastOfTail(capacity, all, after, Detach(c1, e.url).entries, e.url);
  }

  lemma StampedAgain(ttl: real, c: CacheVal, e: Entry, now: real, stamp: real)
    requires Distinct(c.entries) && e in c.entries
    ensures Stamp(AfterExpire(ttl, c, now), e.(pushed := true, hits := 0), stamp) ==
        e.(pushed := true, storedAt := stamp)
  {
    var es := AfterExpire(ttl, c, now).entries;
    if ttl > 0.0 {
      SelectMembers(c.entries, now - ttl, false);
    }
    assert forall x <- es :: x in c.entries;
    assert e !in es ==> e.hits == 0;
    hide AfterExpire, Select;
    var i := IndexOf(es, e.url);
    if i < |es| {
      SameUrl(c.entries, es[i], e);
    } else if e in es {
      FoundByUrl(es, e);
    }
  }

  lemma SameUrl(es: seq<Entry>, x: Entry, y: Entry)
    requires Distinct(es) && x in es && y in es && x.url == y.url
    ensures x == y
  {
    var i :| 0 <= i < |es| && es[i] == x;
    var j :| 0 <= j < |es| && es[j] == y;
  }

  lemma FoundByUrl(es: seq<Entry>, e: Entry)
    requires e in es
    ensures IndexOf(es, e.url) < |es|
  {
    var j :| 0 <= j < |es| && es[j] == e;
  }

  lemma LastOfTail(capacity: nat, all: seq<Entry>, kept: seq<Entry>, front: seq<Entry>, url: string)
    requires LongestFit(capacity, all, kept) && kept != [] && |all| == |front| + 1 && all[..|front|] == front
    requires forall x <- front :: x.url != url
    ensures kept[|kept| - 1] == all[|front|]
    ensures forall x <- kept[..|kept| - 1] :: x.url != url
  {
    forall x <- kept[..|kept| - 1] ensures x.url != url {
      var i :| 0 <= i < |kept| - 1 && kept[i] == x;
      assert x == front[|all| - |kept| + i];
    }
  }

  /** A page prefetched for the coming click, when it is held already, is answered from the cache at that
      click if and only if it had not been read before and has not expired since; a page that had been read
      keeps its reads, so the origin is asked. */
  lemma PrefetchedAgainIsReadyExactlyWhen(s: CacheSetup, c: CacheVal, t: Clock, a: ClientProxying.Ask, next: Clock,
                                          click: ClientProxying.Ask)
    requires Bal(c) && c.used <= s.capacity
    requires a.verb.Get? && a.prefetch && click.verb.Get? && !click.prefetch && click.url == a.url
    requires Copy(AfterExpire(s.ttl, c, t.peek), Get, a.url).Some?
    ensures var e := Copy(AfterExpire(s.ttl, c, t.peek), Get, a.url).value;
            Begin(s, Begin(s, c, t, a).0, next, click).1.Ready? <==>
              e.hits == 0 && !(s.ttl > 0.0 && t.stamp < next.peek - s.ttl)
  {
    var c0 := AfterExpire(s.ttl, c, t.peek);
    var e := Copy(c0, Get, a.url).value;
    BalDistinct(c);
    ExpireDistinct(s.ttl, c, t.peek);
    ExpireBalanced(s.ttl, c, t.peek);
    HeldFits(c0, e);
    hide AfterExpire;
    PutAgain(s.capacity, s.ttl, c0, e, t.op, t.stamp);
    var c1 := Begin(s, c, t, a).0;
    hide AfterPut, Bal;
    var n := |c1.entries| - 1;
    assert c1.entries == c1.entries[..n] + [e.(pushed := true, storedAt := t.stamp)];
    NextClick(s, c1, c1.entries[..n], e.(pushed := true, storedAt := t.stamp), next, click);
  }

  lemma HeldFits(c: CacheVal, e: Entry)
    requires Bal(c) && e in c.entries
    ensures Size(e) <= c.used
  {
    var i :| 0 <= i < |c.entries| && c.entries[i] == e;
    SumWithout(AllBytes, c.entries, i);
  }

  lemma NextClick(s: CacheSetup, c: CacheVal, front: seq<Entry>, e: Entry, next: Clock, click: ClientProxying.Ask)
    requires c.entries == front + [e] && e.pushed && e.url == click.url && forall x <- front :: x.url != e.url
    requires click.verb.Get? && !click.prefetch
    ensures Begin(s, c, next, click).1.Ready? <==> e.hits == 0 && !(s.ttl > 0.0 && e.storedAt < next.peek - s.ttl)
  {
    hide AfterPut, AfterGet;
    var cutoff := next.peek - s.ttl;
    if s.ttl > 0.0 {
      SelectAppend(front, [e], cutoff, false);
      SelectMembers(front, cutoff, false);
      var kept := Select(front, cutoff, false);
      assert Select([e], cutoff, false) == if Stale(e, cutoff) then [] else [e];
      IndexOfLast(kept, e);
    } else {
      IndexOfLast(front, e);
    }
  }
}
