/** What the client proxy answers from: an unread prefetched copy, a copy the origin confirmed, a stale copy
    when the tunnel does not answer, or the origin. */
module ClientProxying {
  import opened Prelude
  import opened PageCache
  import opened Origin

  datatype Source = FromOrigin | FromPush | Revalidated | FromStale | FromError

  /** A stored copy's headers are a dictionary, an answer's a list. */
  datatype ReplyHeaders = Stored(fields: map<string, string>) | Received(list: HeaderList)

  datatype Reply = Reply(status: nat, headers: ReplyHeaders, body: bytes, source: Source)

  /** A reply frame of the server proxy: NOT_MODIFIED, or any other with a status. */
  datatype Answer = Confirmed(headers: HeaderList) | Full(status: nat, headers: HeaderList, body: bytes)

  // -------------------------------------------------------------------------------------- headers

  function LowerChar(ch: char): char { if 'A' <= ch <= 'Z' then (ch as int + 32) as char else ch }

  function Lower(s: string): string { seq(|s|, i requires 0 <= i < |s| => LowerChar(s[i])) }

  /** The first header of a name, in any case. */
  function GetHeader(headers: HeaderList, name: string): Option<string> {
    if headers == [] then None
    else if Lower(headers[0].0) == Lower(name) then Some(headers[0].1)
    else GetHeader(headers[1..], name)
  }

  /** As a dictionary the last header of a name counts. */
  function AsMap(headers: HeaderList): map<string, string> {
    if headers == [] then map[]
    else AsMap(headers[..|headers| - 1])[Lower(headers[|headers| - 1].0) := headers[|headers| - 1].1]
  }

  predicate Contains(s: string, part: string) {
    part <= s || (s != "" && Contains(s[1..], part))
  }

  predicate Cacheable(verb: Verb, status: nat, headers: HeaderList) {
    var control := GetHeader(headers, "cache-control");
    && verb.Get? && status == 200
    && !Contains(Lower(if control.Some? then control.value else ""), "no-store")
    && GetHeader(headers, "set-cookie").None?
  }

  function NewEntry(url: string, body: bytes, headers: HeaderList, pushed: bool, prob: Option<real>): Entry {
    Entry(url, body, AsMap(headers), GetHeader(headers, "etag"), GetHeader(headers, "last-modified"), pushed, prob, 0,
          0.0)
  }

  /** The same name in any case. */
  predicate SameName(a: string, b: string) {
    |a| == |b| && forall i :: 0 <= i < |a| ==> SameLetter(a[i], b[i])
  }

  predicate SameLetter(x: char, y: char) {
    x == y || ('A' <= x <= 'Z' && y as int == x as int + 32) || ('A' <= y <= 'Z' && x as int == y as int + 32)
  }

  lemma LowerIgnoresCase(a: string, b: string)
    ensures Lower(a) == Lower(b) <==> SameName(a, b)
  {
    if Lower(a) == Lower(b) {
      assert |Lower(a)| == |Lower(b)|;
      assert forall i :: 0 <= i < |a| ==> Lower(a)[i] == LowerChar(a[i]) && Lower(b)[i] == LowerChar(b[i]);
    }
  }

  /** Header i is the first of its name. */
  predicate IsFirst(headers: HeaderList, name: string, i: nat) {
    && i < |headers| && SameName(headers[i].0, name)
    && forall j :: 0 <= j < i ==> !SameName(headers[j].0, name)
  }

  lemma {:induction false} GetHeaderIsFirst(headers: HeaderList, name: string)
    ensures var r := GetHeader(headers, name);
            && (r.None? <==> forall j :: 0 <= j < |headers| ==> !SameName(headers[j].0, name))
            && (forall i: nat :: IsFirst(headers, name, i) ==> r == Some(headers[i].1))
  {
    if headers != [] {
      LowerIgnoresCase(headers[0].0, name);
      GetHeaderIsFirst(headers[1..], name);
      hide Lower, SameName;
      forall i: nat | i > 0 && IsFirst(headers, name, i) ensures IsFirst(headers[1..], name, i - 1) {
        assert forall j :: 0 <= j < |headers| - 1 ==> headers[1..][j] == headers[j + 1];
      }
      assert forall j :: 0 < j < |headers| ==> headers[j] == headers[1..][j - 1];
    }
  }

  predicate OccursAt(s: string, part: string, k: nat) {
    k + |part| <= |s| && s[k..k + |part|] == part
  }

  lemma OccursBehind(s: string, part: string, k: nat)
    requires s != ""
    ensures OccursAt(s, part, k + 1) <==> OccursAt(s[1..], part, k)
  {
    if k + 1 + |part| <= |s| {
      assert s[1..][k..k + |part|] == s[k + 1..k + 1 + |part|];
    }
  }

  lemma {:induction false} ContainsExactly(s: string, part: string)
    ensures Contains(s, part) <==> exists k: nat :: OccursAt(s, part, k)
  {
    assert part <= s <==> OccursAt(s, part, 0);
    if s != "" {
      ContainsExactly(s[1..], part);
      hide OccursAt;
      if k: nat :| OccursAt(s, part, k) {
        if k > 0 {
          OccursBehind(s, part, k - 1);
        }
      }
      if k: nat :| OccursAt(s[1..], part, k) {
        OccursBehind(s, part, k);
      }
    }
  }

  predicate NoStoreAt(s: string, k: nat) { k + 8 <= |s| && SameName(s[k..k + 8], "no-store") }

  /** The text says no-store somewhere, in any case. */
  ghost predicate SaysNoStore(s: string) { exists k: nat :: NoStoreAt(s, k) }

  lemma NoStoreExactly(s: string)
    ensures Contains(Lower(s), "no-store") <==> SaysNoStore(s)
  {
    ContainsExactly(Lower(s), "no-store");
    assert Lower("no-store") == "no-store";
    forall k: nat ensures OccursAt(Lower(s), "no-store", k) == NoStoreAt(s, k) {
      if k + 8 <= |s| {
        assert Lower(s)[k..k + 8] == Lower(s[k..k + 8]);
        LowerIgnoresCase(s[k..k + 8], "no-store");
      }
    }
  }

  /** Only a page that was fetched with GET and status 200 is kept, and not if it sets a cookie or its first
      cache-control header forbids it. */
  lemma CacheableExactlyWhen(verb: Verb, status: nat, headers: HeaderList)
    ensures Cacheable(verb, status, headers) <==>
      && verb == Get && status == 200
      && (forall i :: 0 <= i < |headers| ==> !SameName(headers[i].0, "set-cookie"))
      && (forall i: nat :: IsFirst(headers, "cache-control", i) ==> !SaysNoStore(headers[i].1))
  {
    GetHeaderIsFirst(headers, "set-cookie");
    GetHeaderIsFirst(headers, "cache-control");
    var control := GetHeader(headers, "cache-control");
    NoStoreExactly(if control.Some? then control.value else "");
    if control.Some? {
      var j :| 0 <= j < |headers| && SameName(headers[j].0, "cache-control");
      var i := FirstOf(headers, "cache-control", j);
    }
    hide GetHeader, Contains, Lower, SameName, SaysNoStore;
  }

  lemma {:induction false} FirstOf(headers: HeaderList, name: string, j: nat) returns (i: nat)
    requires j < |headers| && SameName(headers[j].0, name)
    ensures i <= j && IsFirst(headers, name, i)
  {
    hide SameName;
    if k: nat :| k < j && SameName(headers[k].0, name) {
      i := FirstOf(headers, name, k);
    } else {
      i := j;
    }
  }

  /** Header i is the last of its name. */
  predicate IsLast(headers: HeaderList, i: nat) {
    i < |headers| && forall j :: i < j < |headers| ==> !SameName(headers[j].0, headers[i].0)
  }

  /** The headers that are kept with a page: each name in lower case, with the value given last. */
  lemma {:induction false} KeptHeaderIsTheLast(headers: HeaderList, i: nat)
    requires IsLast(headers, i)
    ensures Lower(headers[i].0) in AsMap(headers) && AsMap(headers)[Lower(headers[i].0)] == headers[i].1
  {
    var front, n := headers[..|headers| - 1], |headers| - 1;
    if i < n {
      LowerIgnoresCase(headers[n].0, headers[i].0);
      assert IsLast(front, i);
      KeptHeaderIsTheLast(front, i);
    }
    hide Lower, SameName;
  }

  predicate Names(headers: HeaderList, lower: string) { exists h <- headers :: Lower(h.0) == lower }

  lemma {:induction false} KeptHeadersAreGiven(headers: HeaderList)
    ensures forall name <- AsMap(headers) :: Names(headers, name)
  {
    hide Lower;
    if headers != [] {
      var front, last := headers[..|headers| - 1], headers[|headers| - 1];
      KeptHeadersAreGiven(front);
      assert headers == front + [last];
      forall name <- AsMap(headers) ensures Names(headers, name) {
        if name == Lower(last.0) {
          assert last in headers;
        } else {
          assert Names(front, name);
          var h :| h in front && Lower(h.0) == name;
          assert h in headers;
        }
      }
    }
  }

  // -------------------------------------------------------------------------------- fetching a page

  /** Clock readings: looking the page up, the cache operation that follows, and the stamp of a stored copy. */
  datatype Clock = Clock(peek: real, op: real, stamp: real)

  datatype CacheSetup = CacheSetup(capacity: nat, ttl: real)

  /** A browser's request: its own validators, and whether it is the oracle's prefetch. */
  datatype Ask = Ask(verb: Verb, url: string, inm: Option<string>, ims: Option<string>, prefetch: bool)

  /** An answer from the cache, and whether the server must be told of the view; or what to send, with the
      copy held. */
  datatype Begun =
    | Ready(reply: Reply, notify: bool)
    | Sends(entry: Option<Entry>, inm: Option<string>, ims: Option<string>)

  predicate Usable(s: Option<string>) { s.Some? && s.value != "" }

  /** The cache's validator goes along unless the browser sent one of its own. */
  function Validator(own: Option<string>, cached: Option<string>): Option<string> {
    if Usable(cached) && own.None? then cached else own
  }

  function Copy(c: CacheVal, verb: Verb, url: string): Option<Entry> {
    var i := IndexOf(c.entries, url);
    if !verb.Other? && i < |c.entries| then Some(c.entries[i]) else None
  }

  function Begin(s: CacheSetup, c: CacheVal, t: Clock, a: Ask): (CacheVal, Begun) {
    var c1 := if a.verb.Other? then c else AfterExpire(s.ttl, c, t.peek);
    var entry := Copy(c1, a.verb, a.url);
    if entry.None? then (c1, Sends(None, a.inm, a.ims))
    else
      var e := entry.value;
      if a.prefetch then
        (AfterPut(s.capacity, s.ttl, c1, e.(pushed := true, hits := 0), t.op, t.stamp),
         Ready(Reply(200, Stored(e.headers), e.body, FromPush), false))
      else if Unread(e) then
        (AfterGet(s.ttl, c1, a.url, t.op), Ready(Reply(200, Stored(e.headers), e.body, FromPush), true))
      else (c1, Sends(entry, Validator(a.inm, e.etag), Validator(a.ims, e.lastModified)))
  }

  const PLAIN_TEXT: HeaderList := [("Content-Type", "text/plain")]

  const NO_TUNNEL: bytes := [116, 117, 110, 110, 101, 108, 32, 117, 110, 97, 118, 97, 105, 108, 97, 98, 108, 101, 10]

  /** None: the tunnel did not answer in time. */
  function End(s: CacheSetup, c: CacheVal, t: Clock, a: Ask, entry: Option<Entry>, answer: Option<Answer>): (CacheVal,
               Reply)
  {
    if answer.None? then
      if entry.Some? then (AfterGet(s.ttl, c, a.url, t.op),
                           Reply(200, Stored(entry.value.headers), entry.value.body, FromStale))
      else (c, Reply(504, Received(PLAIN_TEXT), NO_TUNNEL, FromError))
    else if answer.value.Confirmed? then
      if entry.Some? then (AfterGet(s.ttl, c, a.url, t.op),
                           Reply(200, Stored(entry.value.headers), entry.value.body, Revalidated))
      else (c, Reply(304, Received(answer.value.headers), [], FromOrigin))
    else
      var f := answer.value;
      (if Cacheable(a.verb, f.status, f.headers)
       then AfterPut(s.capacity, s.ttl, c, NewEntry(a.url, f.body, f.headers, a.prefetch, None), t.op, t.stamp) else c,
       Reply(f.status, Received(f.headers), f.body, FromOrigin))
  }

  function PushStored(s: CacheSetup, c: CacheVal, t: Clock, url: string, body: bytes, headers: HeaderList,
                      prob: Option<real>): CacheVal {
    AfterPut(s.capacity, s.ttl, c, NewEntry(url, body, headers, true, prob), t.op, t.stamp)
  }

  class ClientProxy {
    const cache: Cache

    ghost const setup := CacheSetup(cache.capacity, cache.pushTtl)

    constructor (cache: Cache)
      ensures this.cache == cache
    {
      this.cache := cache;
    }

    method OnPush(t: Clock, url: string, body: bytes, headers: HeaderList, prob: Option<real>)
      requires cache.Valid()
      modifies cache
      ensures cache.Valid() && cache.Value() == PushStored(setup, old(cache.Value()), t, url, body, headers, prob)
    {
      cache.Put(NewEntry(url, body, headers, true, prob), t.op, t.stamp);
    }

    /** Up to the point where the tunnel is asked. */
    method BeginFetch(t: Clock, a: Ask) returns (r: Begun)
      requires cache.Valid()
      modifies cache
      ensures cache.Valid() && (cache.Value(), r) == Begin(setup, old(cache.Value()), t, a)
    {
      hide AfterExpire, AfterGet, AfterPut;
      var entry: Option<Entry> := None;
      if !a.verb.Other? {
        entry := cache.Peek(a.url, t.peek);
      }
      if entry.None? {
        return Sends(None, a.inm, a.ims);
      }
      var e := entry.value;
      if a.prefetch {
        // treated as fresh for the coming click
        cache.Put(e.(pushed := true, hits := 0), t.op, t.stamp);
        return Ready(Reply(200, Stored(e.headers), e.body, FromPush), false);
      }
      if e.pushed && e.hits == 0 {
        var _ := cache.Get(a.url, t.op);
        return Ready(Reply(200, Stored(e.headers), e.body, FromPush), true);
      }
      var inm, ims := a.inm, a.ims;
      if e.etag.Some? && e.etag.value != "" && inm.None? {
        inm := e.etag;
      }
      if e.lastModified.Some? && e.lastModified.value != "" && ims.None? {
        ims := e.lastModified;
      }
      r := Sends(entry, inm, ims);
    }

    /** Once the tunnel has answered or given up; the cache may have changed in between. */
    method EndFetch(t: Clock, a: Ask, entry: Option<Entry>, answer: Option<Answer>) returns (r: Reply)
      requires cache.Valid()
      modifies cache
      ensures cache.Valid() && (cache.Value(), r) == End(setup, old(cache.Value()), t, a, entry, answer)
    {
      hide AfterGet, AfterPut, Cacheable;
      if answer.None? {
        if entry.Some? {
          var _ := cache.Get(a.url, t.op);
          return Reply(200, Stored(entry.value.headers), entry.value.body, FromStale);
        }
        return Reply(504, Received(PLAIN_TEXT), NO_TUNNEL, FromError);
      }
      if answer.value.Confirmed? {
        if entry.Some? {
          var _ := cache.Get(a.url, t.op);
          return Reply(200, Stored(entry.value.headers), entry.value.body, Revalidated);
        }
        return Reply(304, Received(answer.value.headers), [], FromOrigin);  // the browser sent its own validators
      }
      var f := answer.value;
      if Cacheable(a.verb, f.status, f.headers) {
        cache.Put(NewEntry(a.url, f.body, f.headers, a.prefetch, None), t.op, t.stamp);
      }
      r := Reply(f.status, Received(f.headers), f.body, FromOrigin);
    }
  }

  // ------------------------------------------------------------------------------ asking the tunnel

  /** How long one try takes when nothing stops it, and its reply, or None if the connection breaks. */
  datatype Try<T> = Try(duration: real, reply: Option<T>)

  datatype Trip<T> = Replied(reply: T) | TimedOut | Broken

  function Ceil(x: real): int { -((-x).Floor) }

  /** When try n starts; None if it is over by then: with a reply, out of time, or with too little time left
      for another try.  Waiting for less than no time is no wait. */
  function StartOf<T>(tries: nat -> Try<T>, start: real, timeout: real, retryDelay: real, n: nat): Option<real> {
    if n == 0 then if timeout > 0.0 then Some(start) else None
    else
      var before := StartOf(tries, start, timeout, retryDelay, n - 1);
      if before.None? then None
      else
        var x, deadline := tries(n - 1), start + timeout;
        var at := before.value + x.duration;
        if x.duration >= deadline - before.value || x.reply.Some? || deadline - at <= retryDelay then None
        else Some(if retryDelay > 0.0 then at + retryDelay else at)
  }

  /** One request, tried again after every broken connection until the deadline: it returns by then, after
      at most timeout / retryDelay tries, rounded up; with the first reply there is; and it gives up only
      when the time is out or too short for another try. */
  method RoundTrip<T>(tries: nat -> Try<T>, start: real, timeout: real, retryDelay: real)
    returns (r: Trip<T>, count: nat, at: real)
    requires retryDelay > 0.0 && forall k :: tries(k).duration >= 0.0
    ensures start <= at && (timeout > 0.0 ==> at <= start + timeout) && (timeout <= 0.0 ==> at == start && count == 0)
    ensures StartOf(tries, start, timeout, retryDelay, count).None?
    ensures forall k :: 0 <= k < count ==> StartOf(tries, start, timeout, retryDelay, k).Some?
    ensures count <= Max(Ceil(timeout / retryDelay), 0)
    ensures forall k :: 0 <= k < count - 1 ==> tries(k).reply.None?
    ensures r.Replied? ==> count > 0 && tries(count - 1).reply == Some(r.reply)
    ensures r.Broken? ==> count > 0 && tries(count - 1).reply.None? && start + timeout - at <= retryDelay
    ensures r.TimedOut? ==> timeout <= 0.0 || at == start + timeout
  {
    var deadline := start + timeout;
    at := start;
    count := 0;
    while true
      invariant start <= at && (timeout > 0.0 ==> at < deadline) && (timeout <= 0.0 ==> at == start && count == 0)
      invariant StartOf(tries, start, timeout, retryDelay, count) == if timeout > 0.0 then Some(at) else None
      invariant forall k :: 0 <= k < count ==> StartOf(tries, start, timeout, retryDelay, k).Some?
      invariant Waits(count, retryDelay) <= at - start
      invariant forall k :: 0 <= k < count ==> tries(k).reply.None?
      decreases Max(Ceil(timeout / retryDelay), 0) - count
    {
      var remaining := deadline - at;
      if remaining <= 0.0 {
        return TimedOut, count, at;
      }
      AnotherTry(count, at - start, timeout, retryDelay);
      OneMoreWait(count, retryDelay);
      hide Waits, Ceil;
      var x := tries(count);
      count := count + 1;
      if x.duration >= remaining {
        // the time-out is caught like a broken connection, but no time is left to try again
        return TimedOut, count, deadline;
      }
      at := at + x.duration;
      if x.reply.Some? {
        return Replied(x.reply.value), count, at;
      }
      if deadline - at <= retryDelay {
        return Broken, count, at;
      }
      at := at + retryDelay;
    }
  }

  /** What count waits amount to. */
  function Waits(count: nat, retryDelay: real): real { count as real * retryDelay }

  lemma OneMoreWait(count: nat, retryDelay: real)
    ensures Waits(count + 1, retryDelay) == Waits(count, retryDelay) + retryDelay
  {}

  lemma {:induction false} StartsInTime<T>(tries: nat -> Try<T>, start: real, timeout: real, retryDelay: real, n: nat)
    requires retryDelay > 0.0 && forall k :: tries(k).duration >= 0.0
    ensures var s := StartOf(tries, start, timeout, retryDelay, n);
            s.Some? ==> start <= s.value < start + timeout && Waits(n, retryDelay) <= s.value - start
  {
    if n > 0 {
      StartsInTime(tries, start, timeout, retryDelay, n - 1);
      OneMoreWait(n - 1, retryDelay);
      hide Waits;
    }
  }

  lemma {:induction false} WithoutDelayForEver<T>(start: real, timeout: real, retryDelay: real, n: nat)
    requires timeout > 0.0 && retryDelay <= 0.0
    ensures StartOf<T>(k => Try(0.0, None), start, timeout, retryDelay, n) == Some(start)
  {
    if n > 0 {
      WithoutDelayForEver<T>(start, timeout, retryDelay, n - 1);
    }
  }

  /** No pattern of failures and delays lasts for more than bound tries. */
  ghost predicate Bounds<T(!new)>(bound: nat, start: real, timeout: real, retryDelay: real) {
    forall tries: nat -> Try<T> ::
      (forall k :: tries(k).duration >= 0.0) ==> StartOf(tries, start, timeout, retryDelay, bound).None?
  }

  lemma BoundedByDelay<T(!new)>(start: real, timeout: real, retryDelay: real)
    requires retryDelay > 0.0
    ensures Bounds<T>(Max(Ceil(timeout / retryDelay), 0), start, timeout, retryDelay)
  {
    var bound := Max(Ceil(timeout / retryDelay), 0);
    forall tries: nat -> Try<T> | forall k :: tries(k).duration >= 0.0
      ensures StartOf(tries, start, timeout, retryDelay, bound).None?
    {
      StartsInTime(tries, start, timeout, retryDelay, bound);
      var s := StartOf(tries, start, timeout, retryDelay, bound);
      if s.Some? {
        AnotherTry(bound, s.value - start, timeout, retryDelay);
      }
    }
  }

  lemma NoTimeNoTry<T(!new)>(start: real, timeout: real, retryDelay: real)
    requires timeout <= 0.0
    ensures Bounds<T>(0, start, timeout, retryDelay)
  {}

  /** The number of tries is bounded, whatever the connections do, if and only if there is a delay between
      tries or no time to begin with: without a delay, connections that break at once are tried for ever. */
  lemma TriesAreBoundedExactlyWhen<T(!new)>(start: real, timeout: real, retryDelay: real)
    ensures (exists bound :: Bounds<T>(bound, start, timeout, retryDelay)) <==> retryDelay > 0.0 || timeout <= 0.0
  {
    if retryDelay > 0.0 {
      BoundedByDelay<T>(start, timeout, retryDelay);
    } else if timeout <= 0.0 {
      NoTimeNoTry<T>(start, timeout, retryDelay);
    } else {
      forall bound: nat ensures !Bounds<T>(bound, start, timeout, retryDelay) {
        WithoutDelayForEver<T>(start, timeout, retryDelay, bound);
        var tries: nat -> Try<T> := k => Try(0.0, None);
        assert forall k :: tries(k).duration >= 0.0;
      }
    }
  }

  /** Before the deadline there is room for one more try. */
  lemma AnotherTry(count: nat, spent: real, timeout: real, retryDelay: real)
    requires retryDelay > 0.0 && Waits(count, retryDelay) <= spent < timeout
    ensures count + 1 <= Ceil(timeout / retryDelay)
  {
    var q := timeout / retryDelay;
    assert q * retryDelay == timeout;
    SmallerFactor(count as real, q, retryDelay);
  }

  lemma SmallerFactor(a: real, b: real, k: real)
    requires k > 0.0 && a * k < b * k
    ensures a < b
  {
    if a >= b {
      LargerProduct(a, b, k);
    }
  }

  lemma LargerProduct(a: real, b: real, k: real)
    requires a >= b && k > 0.0
    ensures a * k >= b * k
  {
    NotNegative(a - b, k);
    assert a * k - b * k == (a - b) * k;
  }

  lemma NotNegative(a: real, b: real)
    requires a >= 0.0 && b > 0.0
    ensures a * b >= 0.0
  {}
}
