/** What the reader is shown, and what is kept: over every run of both proxies, a changing origin and a cache,
    told from what was held and what the tunnel answered. */
module Serving {
  import opened Prelude
  import opened PageCache
  import opened CacheAccounting
  import opened CacheInclusion
  import opened Origin
  import opened ClientProxying
  import opened Revalidation

  // ------------------------------------------------------------------------------ what was held

  /** The copy of a page that a request finds: unread prefetched ones that are too old are gone by then. */
  ghost function Found(s: CacheSetup, c: CacheVal, t: Clock, a: ClientProxying.Ask): (r: Option<Entry>)
    ensures var es := if a.verb.Other? then [] else AfterExpire(s.ttl, c, t.peek).entries;
            && (r.Some? ==> r.value in es && r.value.url == a.url)
            && (r.None? ==> forall e <- es :: e.url != a.url)
  {
    Copy(if a.verb.Other? then c else AfterExpire(s.ttl, c, t.peek), a.verb, a.url)
  }

  /** What request i found when it was made. */
  ghost function HeldWhenAsked(s: Revalidation.Setup, events: seq<Revalidation.Event>, i: nat): Option<Entry> {
    if events == [] then None
    else
      var front, e := events[..|events| - 1], events[|events| - 1];
      var w := Revalidation.Run(s, front);
      if i < |w.fetches| || !e.Asked? then HeldWhenAsked(s, front, i) else Found(s.cache, w.cache, e.t, e.ask)
  }

  /** The browser's own validators go first; otherwise the copy's, where it has them. */
  predicate Validates(f: Fetch) {
    && f.inm == (if f.ask.inm.Some? then f.ask.inm
                 else if f.entry.Some? && Usable(f.entry.value.etag) then f.entry.value.etag else None)
    && f.ims == (if f.ask.ims.Some? then f.ask.ims
                 else if f.entry.Some? && Usable(f.entry.value.lastModified) then f.entry.value.lastModified else None)
  }

  /** A request is answered at once exactly if a copy is held and it is the oracle's prefetch or the copy has not
      been read; otherwise it goes out, once, with the validators that apply, and of the cache only what is too old
      is gone, which a request other than GET and HEAD does not look at. */
  lemma AnsweredAtOnceExactlyWhen(s: Revalidation.Setup, events: seq<Revalidation.Event>, t: Clock,
                                  a: ClientProxying.Ask)
    ensures var w, r := Revalidation.Run(s, events), Revalidation.Run(s, events + [Asked(t, a)]);
            var held := Found(s.cache, w.cache, t, a);
            if held.Some? && (a.prefetch || Unread(held.value)) then
              && r.fetches == w.fetches
              && r.served == w.served + [Served(a, Reply(200, Stored(held.value.headers), held.value.body, FromPush),
                                                None, None, None)]
            else
              && r.cache == (if a.verb.Other? then w.cache else AfterExpire(s.cache.ttl, w.cache, t.peek))
              && r.served == w.served && |r.fetches| == |w.fetches| + 1 && r.fetches[..|w.fetches|] == w.fetches
              && r.fetches[|w.fetches|].ask == a && r.fetches[|w.fetches|].entry == held
              && r.fetches[|w.fetches|].handled == [] && Validates(r.fetches[|w.fetches|])
  {
    RunSnoc(s, events, Asked(t, a));
    hide Revalidation.Run, AfterExpire, AfterGet, AfterPut;
  }

  /** The server is told of a view that it would not learn of otherwise: of every copy that is read at once, and
      not of the oracle's prefetches. */
  lemma ServerIsToldExactlyWhen(s: CacheSetup, c: CacheVal, t: Clock, a: ClientProxying.Ask)
    ensures var begun := Begin(s, c, t, a).1;
            begun.Ready? ==> (begun.notify <==> !a.prefetch)
  {
    hide AfterExpire, AfterGet, AfterPut;
  }

  /** The requests under way know what was held when they were made. */
  ghost predicate Remembers(s: Revalidation.Setup, events: seq<Revalidation.Event>, fetches: seq<Fetch>) {
    forall i :: 0 <= i < |fetches| ==> fetches[i].entry == HeldWhenAsked(s, events, i)
  }

  lemma RemembersStep(s: Revalidation.Setup, events: seq<Revalidation.Event>, e: Revalidation.Event)
    requires Remembers(s, events, Revalidation.Run(s, events).fetches)
    ensures Remembers(s, events + [e], Revalidation.Run(s, events + [e]).fetches)
  {
    var w, r := Revalidation.Run(s, events), Revalidation.Run(s, events + [e]);
    RunSnoc(s, events, e);
    assert (events + [e])[..|events|] == events;
    if e.Asked? {
      AnsweredAtOnceExactlyWhen(s, events, e.t, e.ask);
      hide Revalidation.Run, Revalidation.After, Found;
      assert forall i :: 0 <= i < |w.fetches| ==> r.fetches[i] == w.fetches[i];
    } else {
      FetchesStay(s, w, e);
      hide Revalidation.Run, Revalidation.After, Found;
    }
  }

  lemma FetchesStay(s: Revalidation.Setup, w: World, e: Revalidation.Event)
    ensures var r := Revalidation.After(s, w, e);
            && |w.fetches| <= |r.fetches| && (!e.Asked? ==> |r.fetches| == |w.fetches|)
            && forall i :: 0 <= i < |w.fetches| ==>
                 r.fetches[i].entry == w.fetches[i].entry && r.fetches[i].ask == w.fetches[i].ask
  {
    hide Begin, End, Respond;
  }

  lemma {:induction false} AlwaysRemembers(s: Revalidation.Setup, events: seq<Revalidation.Event>)
    ensures Remembers(s, events, Revalidation.Run(s, events).fetches)
  {
    if events != [] {
      var front, e := events[..|events| - 1], events[|events| - 1];
      AlwaysRemembers(s, front);
      RemembersStep(s, front, e);
      assert events == front + [e];
    }
    hide Remembers, Revalidation.Run;
  }

  // ----------------------------------------------------------------------------- what is shown

  /** What a browser is to be shown when its request had found held and the tunnel gave answer, or none. */
  ghost predicate RightlyShown(reply: Reply, held: Option<Entry>, answer: Option<Answer>) {
    && (reply.source.FromError? <==> answer.None? && held.None?)
    && (reply.source.FromStale? <==> answer.None? && held.Some?)
    && (reply.source.Revalidated? <==> answer.Some? && answer.value.Confirmed? && held.Some?)
    && !reply.source.FromPush?
    && (reply.source.FromError? ==> reply.status == 504)
    && (reply.source.FromStale? || reply.source.Revalidated? ==>
          reply.status == 200 && reply.headers == Stored(held.value.headers) && reply.body == held.value.body)
    && (reply.source.FromOrigin? ==>
          && reply.headers == Received(answer.value.headers)
          && (if answer.value.Confirmed? then reply.status == 304 && reply.body == []
              else reply.status == answer.value.status && reply.body == answer.value.body))
  }

  ghost predicate ServedRight(s: Revalidation.Setup, events: seq<Revalidation.Event>, fetches: seq<Fetch>, x: Served) {
    if x.fetch.None? then x.reply.source.FromPush? && x.reply.status == 200
    else
      && x.fetch.value < |fetches| && x.ask == fetches[x.fetch.value].ask
      && RightlyShown(x.reply, HeldWhenAsked(s, events, x.fetch.value), x.answer)
  }

  lemma EndShows(s: CacheSetup, c: CacheVal, t: Clock, a: ClientProxying.Ask, entry: Option<Entry>,
                 answer: Option<Answer>)
    ensures RightlyShown(End(s, c, t, a, entry, answer).1, entry, answer)
  {
    hide AfterGet, AfterPut, Cacheable;
  }

  /** Every end of a request under way is shown to the browser, once. */
  lemma EndIsShown(s: Revalidation.Setup, w: World, t: Clock, i: nat, j: Option<nat>)
    requires i < |w.fetches| && (j.Some? ==> j.value < |w.fetches[i].handled|)
    ensures var r := Revalidation.After(s, w, Ended(t, i, j));
            && r.fetches == w.fetches && |r.served| == |w.served| + 1 && r.served[..|w.served|] == w.served
            && var x := r.served[|w.served|];
               && x.ask == w.fetches[i].ask && x.fetch == Some(i)
               && x.answer == (if j.Some? then Some(w.fetches[i].handled[j.value].answer) else None)
               && x.held == (if j.Some? then w.fetches[i].handled[j.value].held else None)
               && RightlyShown(x.reply, w.fetches[i].entry, x.answer)
  {
    var f := w.fetches[i];
    EndShows(s.cache, w.cache, t, f.ask, f.entry, if j.Some? then Some(f.handled[j.value].answer) else None);
    hide End, RightlyShown;
  }

  lemma ServedStep(s: Revalidation.Setup, w: World, e: Revalidation.Event)
    requires !e.Asked? && !e.Ended?
    ensures Revalidation.After(s, w, e).served == w.served
  {
    hide Respond;
  }

  lemma NoSuchEnd(s: Revalidation.Setup, w: World, t: Clock, i: nat, j: Option<nat>)
    requires i >= |w.fetches| || (j.Some? && j.value >= |w.fetches[i].handled|)
    ensures Revalidation.After(s, w, Ended(t, i, j)) == w
  {}

  ghost predicate AllServedRight(s: Revalidation.Setup, events: seq<Revalidation.Event>, w: World) {
    forall x <- w.served :: ServedRight(s, events, w.fetches, x)
  }

  /** What was right stays right. */
  lemma StaysRight(s: Revalidation.Setup, events: seq<Revalidation.Event>, e: Revalidation.Event, x: Served)
    requires ServedRight(s, events, Revalidation.Run(s, events).fetches, x)
    ensures ServedRight(s, events + [e], Revalidation.Run(s, events + [e]).fetches, x)
  {
    RunSnoc(s, events, e);
    assert (events + [e])[..|events|] == events;
    FetchesStay(s, Revalidation.Run(s, events), e);
    hide Revalidation.Run, Revalidation.After, RightlyShown, Found;
  }

  lemma NewestRight(s: Revalidation.Setup, events: seq<Revalidation.Event>, e: Revalidation.Event, x: Served)
    requires x in Revalidation.Run(s, events + [e]).served && x !in Revalidation.Run(s, events).served
    ensures ServedRight(s, events + [e], Revalidation.Run(s, events + [e]).fetches, x)
  {
    var w, r := Revalidation.Run(s, events), Revalidation.Run(s, events + [e]);
    RunSnoc(s, events, e);
    AlwaysRemembers(s, events + [e]);
    match e {
      case Asked(t, a) => AnsweredAtOnceExactlyWhen(s, events, t, a);
      case Ended(t, i, j) =>
        if i >= |w.fetches| || (j.Some? && j.value >= |w.fetches[i].handled|) {
          NoSuchEnd(s, w, t, i, j);
        } else {
          EndIsShown(s, w, t, i, j);
          assert r.served == w.served + [r.served[|w.served|]];
        }
      case _ => ServedStep(s, w, e);
    }
    hide Revalidation.Run, Revalidation.After, RightlyShown, Found, HeldWhenAsked;
  }

  lemma {:induction false} AlwaysServedRight(s: Revalidation.Setup, events: seq<Revalidation.Event>)
    ensures AllServedRight(s, events, Revalidation.Run(s, events))
  {
    if events != [] {
      var front, e := events[..|events| - 1], events[|events| - 1];
      AlwaysServedRight(s, front);
      assert events == front + [e];
      forall x <- Revalidation.Run(s, events).served
        ensures ServedRight(s, events, Revalidation.Run(s, events).fetches, x)
      {
        if x in Revalidation.Run(s, front).served {
          StaysRight(s, front, e, x);
        } else {
          NewestRight(s, front, e, x);
        }
      }
    }
    hide ServedRight, Revalidation.Run;
  }

  /** Over every run: a reader whose request the tunnel did not answer is shown the copy that was held when he
      asked, marked as stale, with its headers; and an error exactly if none was held.  A confirmed copy is shown
      as confirmed, an answer as it came, and what is shown at once is a prefetched page. */
  lemma ShownExactlyWhen(s: Revalidation.Setup, events: seq<Revalidation.Event>, n: nat)
    requires n < |Revalidation.Run(s, events).served|
    ensures var w := Revalidation.Run(s, events);
            var x := w.served[n];
            if x.fetch.None? then x.reply.source.FromPush? && x.reply.status == 200
            else
              && x.fetch.value < |w.fetches| && x.ask == w.fetches[x.fetch.value].ask
              && RightlyShown(x.reply, HeldWhenAsked(s, events, x.fetch.value), x.answer)
  {
    AlwaysServedRight(s, events);
    assert Revalidation.Run(s, events).served[n] in Revalidation.Run(s, events).served;
    hide Revalidation.Run, RightlyShown, HeldWhenAsked;
  }

  // ------------------------------------------------------------------------------- what is kept

  ghost predicate CacheFine(s: CacheSetup, c: CacheVal) { Bal(c) && c.used <= s.capacity }

  lemma OpsKeepFine(s: CacheSetup, c: CacheVal, url: string, e: Entry, now: real, stamp: real)
    requires CacheFine(s, c)
    ensures CacheFine(s, AfterExpire(s.ttl, c, now)) && CacheFine(s, AfterGet(s.ttl, c, url, now))
    ensures CacheFine(s, AfterPut(s.capacity, s.ttl, c, e, now, stamp))
  {
    ApplyBalanced(s.capacity, s.ttl, c, OpPeek(now));
    ApplyBalanced(s.capacity, s.ttl, c, OpGet(url, now));
    ApplyBalanced(s.capacity, s.ttl, c, OpPut(e, now, stamp));
    hide Bal, AfterExpire, AfterGet, AfterPut;
  }

  lemma BeginFine(s: CacheSetup, c: CacheVal, t: Clock, a: ClientProxying.Ask)
    requires CacheFine(s, c)
    ensures CacheFine(s, Begin(s, c, t, a).0)
  {
    var c1 := if a.verb.Other? then c else AfterExpire(s.ttl, c, t.peek);
    var e := NewEntry(a.url, [], [], false, None);
    OpsKeepFine(s, c, a.url, e, t.peek, t.stamp);
    var entry := Copy(c1, a.verb, a.url);
    OpsKeepFine(s, c1, a.url, if entry.Some? then entry.value.(pushed := true, hits := 0) else e, t.op, t.stamp);
    hide CacheFine, AfterExpire, AfterGet, AfterPut, NewEntry, Copy;
  }

  lemma EndFine(s: CacheSetup, c: CacheVal, t: Clock, a: ClientProxying.Ask, entry: Option<Entry>,
                answer: Option<Answer>)
    requires CacheFine(s, c)
    ensures CacheFine(s, End(s, c, t, a, entry, answer).0)
  {
    var e := if answer.Some? && answer.value.Full?
             then NewEntry(a.url, answer.value.body, answer.value.headers, a.prefetch, None)
             else NewEntry(a.url, [], [], false, None);
    OpsKeepFine(s, c, a.url, e, t.op, t.stamp);
    hide CacheFine, AfterExpire, AfterGet, AfterPut, NewEntry, Cacheable;
  }

  lemma CacheStep(s: Revalidation.Setup, w: World, e: Revalidation.Event)
    requires CacheFine(s.cache, w.cache)
    ensures CacheFine(s.cache, Revalidation.After(s, w, e).cache)
  {
    match e {
      case Asked(t, a) => BeginFine(s.cache, w.cache, t, a);
      case Ended(t, i, j) =>
        if i < |w.fetches| && (j.Some? ==> j.value < |w.fetches[i].handled|) {
          var f := w.fetches[i];
          EndFine(s.cache, w.cache, t, f.ask, f.entry, if j.Some? then Some(f.handled[j.value].answer) else None);
        }
      case PushArrives(t, p, prob) =>
        if p < |w.pushes| {
          var x := w.pushes[p];
          OpsKeepFine(s.cache, w.cache, x.url, NewEntry(x.url, x.body, x.headers, true, prob), t.op, t.stamp);
        }
      case _ =>
    }
    hide CacheFine, Begin, End, AfterPut, NewEntry, Respond;
  }

  lemma EmptyFine(s: CacheSetup)
    ensures CacheFine(s, EMPTY)
  {}

  lemma {:induction false} AlwaysFine(s: Revalidation.Setup, events: seq<Revalidation.Event>)
    ensures CacheFine(s.cache, Revalidation.Run(s, events).cache)
  {
    hide CacheFine, Revalidation.After;
    if events == [] {
      EmptyFine(s.cache);
    } else {
      AlwaysFine(s, events[..|events| - 1]);
      CacheStep(s, Revalidation.Run(s, events[..|events| - 1]), events[|events| - 1]);
    }
  }

  /** How often a copy counts as read when it is stored: a prefetched page inherits that from the copy it
      replaces. */
  ghost predicate Reads(es: seq<Entry>, url: string, pushed: bool, hits: nat) {
    && (hits > 0 ==> pushed && exists e <- es :: e.url == url && e.hits == hits)
    && (pushed ==> forall e <- es :: e.url == url ==> e.hits == hits)
  }

  /** The page is the most recent entry, as it came. */
  ghost predicate Kept(es: seq<Entry>, before: seq<Entry>, url: string, body: bytes, headers: HeaderList, pushed: bool,
                       prob: Option<real>, stamp: real)
  {
    && es != []
    && var e := es[|es| - 1];
       && e.url == url && e.body == body && e.headers == AsMap(headers) && e.pushed == pushed && e.prob == prob
       && e.storedAt == stamp
       && e.etag == GetHeader(headers, "etag") && e.lastModified == GetHeader(headers, "last-modified")
       && Reads(before, url, pushed, e.hits)
  }

  lemma StoredPage(s: CacheSetup, c: CacheVal, url: string, body: bytes, headers: HeaderList, pushed: bool,
                   prob: Option<real>, now: real, stamp: real)
    requires CacheFine(s, c)
    ensures var before := AfterExpire(s.ttl, c, now);
            var r := AfterPut(s.capacity, s.ttl, c, NewEntry(url, body, headers, pushed, prob), now, stamp);
            if |body| <= s.capacity then Kept(r.entries, before.entries, url, body, headers, pushed, prob, stamp)
            else r == before
  {
    var before := AfterExpire(s.ttl, c, now);
    var e := NewEntry(url, body, headers, pushed, prob);
    OpsKeepFine(s, c, url, e, now, stamp);
    hide AfterExpire, AsMap, GetHeader;
    if |body| <= s.capacity {
      PutKeepsAndEvictsLeast(s.capacity, before, e, stamp);
      StampReads(before, e, stamp);
    }
    hide Store, Stamp, Reads;
  }

  lemma StampReads(c: CacheVal, e: Entry, stamp: real)
    requires Distinct(c.entries) && e.hits == 0
    ensures Reads(c.entries, e.url, e.pushed, Stamp(c, e, stamp).hits)
    ensures Stamp(c, e, stamp) == e.(storedAt := stamp, hits := Stamp(c, e, stamp).hits)
  {
    var i := IndexOf(c.entries, e.url);
    forall x <- c.entries | x.url == e.url ensures i < |c.entries| && x == c.entries[i] {
      FoundByUrl(c.entries, x);
      SameUrl(c.entries, x, c.entries[i]);
    }
  }

  lemma ExpireDrops(s: CacheSetup, c: CacheVal, now: real)
    ensures forall e <- AfterExpire(s.ttl, c, now).entries :: e in c.entries
  {
    if s.ttl > 0.0 {
      SelectMembers(c.entries, now - s.ttl, false);
    }
  }

  /** Which answers are kept. */
  ghost predicate MayKeep(s: CacheSetup, a: ClientProxying.Ask, f: Answer)
    requires f.Full?
  {
    && a.verb.Get? && f.status == 200 && |f.body| <= s.capacity
    && (forall i :: 0 <= i < |f.headers| ==> !SameName(f.headers[i].0, "set-cookie"))
    && (forall i: nat :: IsFirst(f.headers, "cache-control", i) ==> !SaysNoStore(f.headers[i].1))
  }

  /** Over every run: a page that was answered in full is kept as the most recent entry, with its validators,
      exactly if it may be; otherwise nothing is put into the cache. */
  lemma AnswerIsKeptExactlyWhen(s: Revalidation.Setup, events: seq<Revalidation.Event>, t: Clock, i: nat, j: nat)
    requires i < |Revalidation.Run(s, events).fetches| && j < |Revalidation.Run(s, events).fetches[i].handled|
    requires Revalidation.Run(s, events).fetches[i].handled[j].answer.Full?
    ensures var w, r := Revalidation.Run(s, events), Revalidation.Run(s, events + [Ended(t, i, Some(j))]);
            var a, f := w.fetches[i].ask, w.fetches[i].handled[j].answer;
            if MayKeep(s.cache, a, f) then
              Kept(r.cache.entries, AfterExpire(s.cache.ttl, w.cache, t.op).entries, a.url, f.body, f.headers,
                   a.prefetch, None, t.stamp)
            else forall e <- r.cache.entries :: e in w.cache.entries
  {
    var w := Revalidation.Run(s, events);
    var a, f := w.fetches[i].ask, w.fetches[i].handled[j].answer;
    RunSnoc(s, events, Ended(t, i, Some(j)));
    AlwaysFine(s, events);
    CacheableExactlyWhen(a.verb, f.status, f.headers);
    StoredPage(s.cache, w.cache, a.url, f.body, f.headers, a.prefetch, None, t.op, t.stamp);
    ExpireDrops(s.cache, w.cache, t.op);
    hide Revalidation.Run, AfterExpire, AfterPut, NewEntry, Cacheable, Kept, SameName, SaysNoStore, CacheFine;
  }

  /** A push that fits is the most recent entry, waiting to be read, unless the copy it replaces had been read. */
  lemma PushIsKept(s: Revalidation.Setup, events: seq<Revalidation.Event>, t: Clock, p: nat, prob: Option<real>)
    requires p < |Revalidation.Run(s, events).pushes|
    ensures var w, r := Revalidation.Run(s, events), Revalidation.Run(s, events + [PushArrives(t, p, prob)]);
            var before, x := AfterExpire(s.cache.ttl, w.cache, t.op), w.pushes[p];
            if |x.body| <= s.cache.capacity then
              Kept(r.cache.entries, before.entries, x.url, x.body, x.headers, true, prob, t.stamp)
            else r.cache == before
  {
    var w := Revalidation.Run(s, events);
    RunSnoc(s, events, PushArrives(t, p, prob));
    AlwaysFine(s, events);
    var x := w.pushes[p];
    StoredPage(s.cache, w.cache, x.url, x.body, x.headers, true, prob, t.op, t.stamp);
    hide Revalidation.Run, AfterExpire, AfterPut, NewEntry, Kept, CacheFine;
  }

  /** A copy that is shown, at once, confirmed or stale, counts as read once more and becomes the most recent
      entry, if it is still held; and if not, as a miss. */
  ghost predicate CountedAsRead(c: CacheVal, r: CacheVal, url: string) {
    && r.stats.hits + r.stats.misses == c.stats.hits + c.stats.misses + 1
    && (forall e <- c.entries :: e.url == url ==>
          r.entries != [] && r.entries[|r.entries| - 1] == e.(hits := e.hits + 1))
    && ((exists e <- c.entries :: e.url == url) ==> r.stats.hits == c.stats.hits + 1)
    && |r.entries| == |c.entries|
  }

  lemma ReadCounts(ttl: real, c: CacheVal, url: string, now: real)
    requires Distinct(c.entries)
    ensures CountedAsRead(AfterExpire(ttl, c, now), AfterGet(ttl, c, url, now), url)
  {
    var c1 := AfterExpire(ttl, c, now);
    ExpireDistinct(ttl, c, now);
    hide AfterExpire;
    var i := IndexOf(c1.entries, url);
    forall x <- c1.entries | x.url == url ensures i < |c1.entries| && x == c1.entries[i] {
      FoundByUrl(c1.entries, x);
      SameUrl(c1.entries, x, c1.entries[i]);
    }
  }

  lemma ShownIsCountedAsRead(s: Revalidation.Setup, events: seq<Revalidation.Event>, t: Clock, i: nat, j: Option<nat>)
    requires var w := Revalidation.Run(s, events);
             i < |w.fetches| && (j.Some? ==> j.value < |w.fetches[i].handled|)
    requires var f := Revalidation.Run(s, events).fetches[i];
             f.entry.Some? && (j.Some? ==> f.handled[j.value].answer.Confirmed?)
    ensures var w, r := Revalidation.Run(s, events), Revalidation.Run(s, events + [Ended(t, i, j)]);
            CountedAsRead(AfterExpire(s.cache.ttl, w.cache, t.op), r.cache, w.fetches[i].ask.url)
  {
    hide Revalidation.Run, AfterExpire, AfterGet, AfterPut, Cacheable, CountedAsRead, NewEntry;
    var w := Revalidation.Run(s, events);
    RunSnoc(s, events, Ended(t, i, j));
    AlwaysFine(s, events);
    ReadCounts(s.cache.ttl, w.cache, w.fetches[i].ask.url, t.op);
  }

  /** And an unread copy that is shown at once. */
  lemma ReadAtOnceIsCounted(s: Revalidation.Setup, events: seq<Revalidation.Event>, t: Clock, a: ClientProxying.Ask)
    requires var held := Found(s.cache, Revalidation.Run(s, events).cache, t, a);
             !a.prefetch && held.Some? && Unread(held.value)
    ensures var w, r := Revalidation.Run(s, events), Revalidation.Run(s, events + [Asked(t, a)]);
            var found := AfterExpire(s.cache.ttl, w.cache, t.peek);
            CountedAsRead(AfterExpire(s.cache.ttl, found, t.op), r.cache, a.url)
  {
    var w := Revalidation.Run(s, events);
    RunSnoc(s, events, Asked(t, a));
    AlwaysFine(s, events);
    ExpireDistinct(s.cache.ttl, w.cache, t.peek);
    ReadCounts(s.cache.ttl, AfterExpire(s.cache.ttl, w.cache, t.peek), a.url, t.op);
    hide Revalidation.Run, AfterExpire, AfterGet, AfterPut, CountedAsRead;
  }

  // --------------------------------------------------------------------------- what the origin does

  /** A push carries the page as the origin holds it when it is made, with its validators; and none is made of a page
      that is not there. */
  lemma PushCarriesThePage(s: Revalidation.Setup, events: seq<Revalidation.Event>, url: string)
    ensures var w, r := Revalidation.Run(s, events), Revalidation.Run(s, events + [PushMade(url)]);
            if url in w.site then
              r == w.(pushes := w.pushes + [Revalidation.Pushed(url, w.site[url].body,
                                                                VersionHeaders(s.library, w.site[url]))])
            else r == w
  {
    RunSnoc(s, events, PushMade(url));
    hide Revalidation.Run, VersionHeaders;
  }

  /** The answer that the last handling of request i left. */
  function LastAnswer(w: World, i: nat): Option<Answer> {
    if i < |w.fetches| && w.fetches[i].handled != []
    then Some(w.fetches[i].handled[|w.fetches[i].handled| - 1].answer) else None
  }

  /** An origin out of reach is answered for with 502, and nothing else about the request changes. */
  lemma UnreachedIsBadGateway(s: Revalidation.Setup, events: seq<Revalidation.Event>, i: nat)
    requires i < |Revalidation.Run(s, events).fetches|
    ensures var w, r := Revalidation.Run(s, events), Revalidation.Run(s, events + [Unreached(i)]);
            && LastAnswer(r, i) == Some(Full(502, [], []))
            && r.fetches[i] == w.fetches[i].(handled := w.fetches[i].handled + [Handled(Full(502, [], []), None)])
            && r.cache == w.cache && r.served == w.served && r.site == w.site
  {
    RunSnoc(s, events, Unreached(i));
    hide Revalidation.Run;
  }

  /** A request that reaches the origin is answered for the page as it is then: a GET without any validators gets the
      page itself, one for a page that was removed 404. */
  lemma ReachedIsAnsweredAsItIs(s: Revalidation.Setup, events: seq<Revalidation.Event>, i: nat)
    requires i < |Revalidation.Run(s, events).fetches| && Revalidation.Run(s, events).fetches[i].ask.verb.Get?
    ensures var w, r := Revalidation.Run(s, events), Revalidation.Run(s, events + [Reached(i)]);
            var f := w.fetches[i];
            && r.cache == w.cache && r.served == w.served && r.site == w.site
            && (f.ask.url in w.site && f.inm.None? && f.ims.None? ==>
                  var v := w.site[f.ask.url];
                  LastAnswer(r, i) == Some(Full(200, VersionHeaders(s.library, v), v.body)))
            && (f.ask.url !in w.site ==> LastAnswer(r, i).Some? && LastAnswer(r, i).value.Full?
                                           && LastAnswer(r, i).value.status == 404)
  {
    RunSnoc(s, events, Reached(i));
    hide Revalidation.Run, VersionHeaders;
  }

  /** The site is what was published and not removed since. */
  function Published(events: seq<Revalidation.Event>, url: string): Option<Version> {
    if events == [] then None
    else
      var e := events[|events| - 1];
      if e.Publish? && e.url == url then Some(e.version)
      else if e.Remove? && e.url == url then None
      else Published(events[..|events| - 1], url)
  }

  lemma {:induction false} SiteIsWhatWasPublished(s: Revalidation.Setup, events: seq<Revalidation.Event>, url: string)
    ensures Held(Revalidation.Run(s, events), url) == Published(events, url)
  {
    if events != [] {
      SiteIsWhatWasPublished(s, events[..|events| - 1], url);
      SiteStep(s, Revalidation.Run(s, events[..|events| - 1]), events[|events| - 1], url);
      hide Revalidation.After, Held;
    }
  }

  lemma SiteStep(s: Revalidation.Setup, w: World, e: Revalidation.Event, url: string)
    ensures Held(Revalidation.After(s, w, e), url) ==
            if e.Publish? && e.url == url then Some(e.version)
            else if e.Remove? && e.url == url then None else Held(w, url)
  {
    hide Begin, End, Respond, VersionHeaders;
  }
}
