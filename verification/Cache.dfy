/** The client's page cache: least-recently-used, bounded by bytes, with expiry of prefetched pages that
    nobody read and an account of what prefetching wasted. */
module PageCache {
  import opened Prelude

  datatype Entry = Entry(
    url: string,
    body: bytes,
    headers: map<string, string>,
    etag: Option<string>,
    lastModified: Option<string>,
    pushed: bool,             // arrived by prefetch rather than by a request of the reader
    prob: Option<real>,
    hits: nat,
    storedAt: real)

  datatype Stats = Stats(hits: nat, misses: nat, pushHits: nat, pushedBytes: nat, wastedBytes: nat, expiredBytes: nat)

  /** Bookkeeping the program does not do, to say where every pushed page went: how many pages were pushed
      and wasted, and how many pages and bytes were evicted after being read or replaced by a newer put. */
  datatype Audit = Audit(
    pushes: nat, wastes: nat, readOut: nat, readOutBytes: nat, superseded: nat, supersededBytes: nat)

  /** More such bookkeeping, page by page: every stored push has a number, numbers tells which push the copy
      held of a url came with, and booked lists what the statistics count as a first use or as waste. */
  datatype Ledger = Ledger(pushes: nat, numbers: map<string, nat>, booked: seq<Booking>)

  datatype Booking = Booking(number: nat, size: nat, wasted: bool)

  /** The cache as a value; entries from the least to the most recently used. */
  datatype CacheVal = CacheVal(entries: seq<Entry>, used: int, stats: Stats, audit: Audit, ledger: Ledger)

  const EMPTY := CacheVal([], 0, Stats(0, 0, 0, 0, 0, 0), Audit(0, 0, 0, 0, 0, 0), Ledger(0, map[], []))

  function NumberOf(l: Ledger, url: string): nat { if url in l.numbers then l.numbers[url] else 0 }

  function Book(l: Ledger, e: Entry, wasted: bool): Ledger {
    l.(booked := l.booked + [Booking(NumberOf(l, e.url), Size(e), wasted)])
  }

  function Enrol(l: Ledger, url: string): Ledger {
    Ledger(l.pushes + 1, l.numbers[url := l.pushes], l.booked)
  }

  function Size(e: Entry): nat { |e.body| }

  function IndexOf(es: seq<Entry>, url: string): (i: nat)
    ensures i <= |es|
    ensures i < |es| ==> es[i].url == url
    ensures forall j :: 0 <= j < i ==> es[j].url != url
  {
    if es == [] then 0 else if es[0].url == url then 0 else 1 + IndexOf(es[1..], url)
  }

  predicate Holds(es: seq<Entry>, url: string) { IndexOf(es, url) < |es| }

  function Without(es: seq<Entry>, i: nat): seq<Entry>
    requires i < |es|
  {
    es[..i] + es[i + 1..]
  }

  // ----------------------------------------------------------------------------------- the operations

  predicate Unread(e: Entry) { e.pushed && e.hits == 0 }

  predicate Stale(e: Entry, cutoff: real) { Unread(e) && e.storedAt < cutoff }

  function Select(es: seq<Entry>, cutoff: real, stale: bool): seq<Entry> {
    if es == [] then []
    else if Stale(es[0], cutoff) == stale then [es[0]] + Select(es[1..], cutoff, stale)
    else Select(es[1..], cutoff, stale)
  }

  /** _account_waste. */
  function Waste(v: CacheVal, e: Entry): CacheVal {
    if Unread(e) then
      v.(stats := v.stats.(wastedBytes := v.stats.wastedBytes + Size(e)),
         audit := v.audit.(wastes := v.audit.wastes + 1),
         ledger := Book(v.ledger, e, true))
    else v
  }

  /** An entry leaves because it is too old. */
  function ExpireOne(v: CacheVal, e: Entry): CacheVal {
    Waste(v.(used := v.used - Size(e), stats := v.stats.(expiredBytes := v.stats.expiredBytes + Size(e))), e)
  }

  function ExpireAll(v: CacheVal, stale: seq<Entry>): CacheVal
    decreases |stale|
  {
    if stale == [] then v else ExpireAll(ExpireOne(v, stale[0]), stale[1..])
  }

  function AfterExpire(ttl: real, v: CacheVal, now: real): CacheVal {
    if ttl <= 0.0 then v
    else
      var cutoff := now - ttl;
      ExpireAll(v, Select(v.entries, cutoff, true)).(entries := Select(v.entries, cutoff, false))
  }

  function Hit(v: CacheVal, i: nat): CacheVal
    requires i < |v.entries|
  {
    var e := v.entries[i];
    v.(entries := Without(v.entries, i) + [e.(hits := e.hits + 1)],
       stats := v.stats.(hits := v.stats.hits + 1, pushHits := v.stats.pushHits + if Unread(e) then 1 else 0),
       ledger := if Unread(e) then Book(v.ledger, e, false) else v.ledger)
  }

  function Lookup(v: CacheVal, url: string): CacheVal {
    var i := IndexOf(v.entries, url);
    if i < |v.entries| then Hit(v, i) else v.(stats := v.stats.(misses := v.stats.misses + 1))
  }

  function AfterGet(ttl: real, v: CacheVal, url: string, now: real): CacheVal {
    Lookup(AfterExpire(ttl, v, now), url)
  }

  /** The least recently used entry makes room. */
  function EvictOne(v: CacheVal): CacheVal
    requires v.entries != []
  {
    var e := v.entries[0];
    var v1 := Waste(v.(entries := v.entries[1..], used := v.used - Size(e)), e);
    if e.pushed && !Unread(e) then
      v1.(audit := v1.audit.(readOut := v1.audit.readOut + 1, readOutBytes := v1.audit.readOutBytes + Size(e)))
    else v1
  }

  function Evict(capacity: nat, v: CacheVal): CacheVal
    decreases |v.entries|
  {
    if v.used > capacity && v.entries != [] then Evict(capacity, EvictOne(v)) else v
  }

  /** The old copy of a page that is stored again. */
  function Detach(v: CacheVal, url: string): CacheVal {
    var i := IndexOf(v.entries, url);
    if i == |v.entries| then v
    else
      var prior := v.entries[i];
      var v1 := v.(entries := Without(v.entries, i), used := v.used - Size(prior));
      if prior.pushed then
        v1.(audit := v1.audit.(superseded := v1.audit.superseded + 1,
                               supersededBytes := v1.audit.supersededBytes + Size(prior)))
      else v1
  }

  /** What is stored: stamped, and a page that had been read stays read when it is pushed again. */
  function Stamp(v: CacheVal, e: Entry, now: real): Entry {
    var i := IndexOf(v.entries, e.url);
    var carried := i < |v.entries| && v.entries[i].hits > 0 && e.pushed;
    e.(storedAt := now, hits := if carried then v.entries[i].hits else e.hits)
  }

  function Attach(v: CacheVal, e: Entry): CacheVal {
    v.(entries := v.entries + [e], used := v.used + Size(e),
       stats := v.stats.(pushedBytes := v.stats.pushedBytes + if e.pushed then Size(e) else 0),
       audit := v.audit.(pushes := v.audit.pushes + if e.pushed then 1 else 0),
       ledger := if e.pushed then Enrol(v.ledger, e.url) else v.ledger)
  }

  function Store(capacity: nat, v: CacheVal, e: Entry, now: real): CacheVal {
    if Size(e) > capacity then v
    else Evict(capacity, Attach(Detach(v, e.url), Stamp(v, e, now)))
  }

  /** The clock is read once for expiry and once for the stamp. */
  function AfterPut(capacity: nat, ttl: real, v: CacheVal, e: Entry, now: real, stampedAt: real): CacheVal {
    Store(capacity, AfterExpire(ttl, v, now), e, stampedAt)
  }

  function WasteAll(v: CacheVal, es: seq<Entry>): CacheVal
    decreases |es|
  {
    if es == [] then v else WasteAll(Waste(v, es[0]), es[1..])
  }

  function AfterFinalize(v: CacheVal): CacheVal { WasteAll(v, v.entries) }

  // --------------------------------------------------------------------------------------- the object

  class Cache {
    const capacity: nat
    const pushTtl: real
    var entries: seq<Entry>
    var used: int
    var stats: Stats
    ghost var audit: Audit
    ghost var ledger: Ledger

    ghost function Value(): CacheVal
      reads this
    {
      CacheVal(entries, used, stats, audit, ledger)
    }

    ghost predicate Valid()
      reads this
    {
      Distinct(entries)
    }

    constructor (capacity: nat, pushTtl: real)
      ensures Valid() && Value() == EMPTY && this.capacity == capacity && this.pushTtl == pushTtl
    {
      this.capacity, this.pushTtl := capacity, pushTtl;
      entries, used, stats, audit, ledger := [], 0, EMPTY.stats, EMPTY.audit, EMPTY.ledger;
    }

    method AccountWaste(e: Entry)
      modifies this`stats, this`audit, this`ledger
      ensures Value() == Waste(old(Value()), e)
    {
      if e.pushed && e.hits == 0 {
        stats := stats.(wastedBytes := stats.wastedBytes + Size(e));
        audit := audit.(wastes := audit.wastes + 1);
        ledger := Book(ledger, e, true);
      }
    }

    /** Drops prefetched pages that have gone unread for longer than the time to live. */
    method Expire(now: real)
      requires Valid()
      modifies this
      ensures Valid() && Value() == AfterExpire(pushTtl, old(Value()), now)
    {
      ExpireDistinct(pushTtl, Value(), now);
      if pushTtl <= 0.0 {
        return;
      }
      var cutoff := now - pushTtl;
      var stale := FindStale(cutoff);
      SweepIsExpire(entries, cutoff);
      Sweep(stale);
    }

    method Sweep(stale: seq<Entry>)
      requires Distinct(entries) && OnceEach(entries, stale)
      modifies this
      ensures Value() == ExpireAll(old(Value()), stale).(entries := Filter(old(entries), stale))
    {
      hide ExpireOne, Filter, DeleteUrl, Distinct, OnceEach;
      ghost var start := Value();
      var k := 0;
      FilterNothing(entries);
      while k < |stale|
        invariant k <= |stale|
        invariant entries == Filter(start.entries, stale[..k])
        invariant ExpireAll(Value().(entries := start.entries), stale[k..]) == ExpireAll(start, stale)
      {
        SweepStep(Value(), start.entries, stale, k);
        Drop(stale[k]);
        k := k + 1;
      }
      assert stale[..k] == stale;
      SweepKeepsEntries(start, stale);
    }

    method Drop(e: Entry)
      modifies this
      ensures Value() == ExpireOne(old(Value()), e).(entries := DeleteUrl(old(entries), e.url))
    {
      entries := DeleteUrl(entries, e.url);
      used := used - Size(e);
      stats := stats.(expiredBytes := stats.expiredBytes + Size(e));
      AccountWaste(e);
    }

    method FindStale(cutoff: real) returns (stale: seq<Entry>)
      ensures stale == Select(entries, cutoff, true)
    {
      stale := [];
      var i := 0;
      while i < |entries|
        invariant i <= |entries|
        invariant stale + Select(entries[i..], cutoff, true) == Select(entries, cutoff, true)
      {
        var e := entries[i];
        if e.pushed && e.hits == 0 && e.storedAt < cutoff {
          stale := stale + [e];
        }
        i := i + 1;
      }
    }

    method Peek(url: string, now: real) returns (r: Option<Entry>)
      requires Valid()
      modifies this
      ensures Valid() && Value() == AfterExpire(pushTtl, old(Value()), now)
      ensures r.Some? <==> Holds(Value().entries, url)
      ensures r.Some? ==> r.value == Value().entries[IndexOf(Value().entries, url)]
    {
      Expire(now);
      var i := IndexOf(entries, url);
      r := if i < |entries| then Some(entries[i]) else None;
    }

    method Get(url: string, now: real) returns (r: Option<Entry>)
      requires Valid()
      modifies this
      ensures Valid() && Value() == AfterGet(pushTtl, old(Value()), url, now)
      ensures r.Some? <==> Holds(AfterExpire(pushTtl, old(Value()), now).entries, url)
      ensures r.Some? ==>
          Value().entries != [] && r.value == Value().entries[|Value().entries| - 1] && r.value.url == url
    {
      GetDistinct(pushTtl, Value(), url, now);
      hide Distinct, AfterExpire;
      Expire(now);
      r := Find(url);
    }

    /** The lookup proper: a hit goes to the most recent end. */
    method Find(url: string) returns (r: Option<Entry>)
      modifies this
      ensures Value() == Lookup(old(Value()), url)
      ensures r.Some? <==> Holds(old(entries), url)
      ensures r.Some? ==> entries != [] && r.value == entries[|entries| - 1] && r.value.url == url
    {
      var i := IndexOf(entries, url);
      if i == |entries| {
        stats := stats.(misses := stats.misses + 1);
        return None;
      }
      var e := entries[i];
      if e.pushed && e.hits == 0 {
        stats := stats.(pushHits := stats.pushHits + 1);
        ledger := Book(ledger, e, false);
      }
      e := e.(hits := e.hits + 1);
      entries := entries[..i] + entries[i + 1..] + [e];
      stats := stats.(hits := stats.hits + 1);
      r := Some(e);
    }

    method Put(entry: Entry, now: real, stampedAt: real)
      requires Valid()
      modifies this
      ensures Valid() && Value() == AfterPut(capacity, pushTtl, old(Value()), entry, now, stampedAt)
    {
      hide Evict, AfterExpire, Detach, Distinct;
      PutDistinct(capacity, pushTtl, Value(), entry, now, stampedAt);
      Expire(now);
      if Size(entry) > capacity {
        return;
      }
      var e := entry.(storedAt := stampedAt);
      var prior := TakeOut(e.url);
      // what had been read before is not waiting to be read
      if prior.Some? && prior.value.hits > 0 && e.pushed {
        e := e.(hits := prior.value.hits);
      }
      if e.pushed {
        stats := stats.(pushedBytes := stats.pushedBytes + Size(e));
        audit := audit.(pushes := audit.pushes + 1);
        ledger := Enrol(ledger, e.url);
      }
      entries := entries + [e];
      used := used + Size(e);
      MakeRoom();
    }

    method TakeOut(url: string) returns (prior: Option<Entry>)
      modifies this
      ensures Value() == Detach(old(Value()), url)
      ensures var i := IndexOf(old(entries), url);
              prior == if i < |old(entries)| then Some(old(entries)[i]) else None
    {
      var i := IndexOf(entries, url);
      if i == |entries| {
        return None;
      }
      var e := entries[i];
      prior := Some(e);
      entries := entries[..i] + entries[i + 1..];
      used := used - Size(e);
      if e.pushed {
        audit := audit.(superseded := audit.superseded + 1, supersededBytes := audit.supersededBytes + Size(e));
      }
    }

    method MakeRoom()
      modifies this
      ensures Value() == Evict(capacity, old(Value()))
    {
      while used > capacity && entries != []
        invariant Evict(capacity, Value()) == Evict(capacity, old(Value()))
        decreases |entries|
      {
        var evicted := entries[0];
        entries := entries[1..];
        used := used - Size(evicted);
        AccountWaste(evicted);
        if evicted.pushed && evicted.hits > 0 {
          audit := audit.(readOut := audit.readOut + 1, readOutBytes := audit.readOutBytes + Size(evicted));
        }
      }
    }

    method Finalize() returns (r: Stats)
      modifies this
      ensures Value() == AfterFinalize(old(Value())) && r == stats
    {
      var i := 0;
      while i < |entries|
        invariant i <= |entries| && entries == old(entries)
        invariant WasteAll(Value(), entries[i..]) == AfterFinalize(old(Value()))
      {
        AccountWaste(entries[i]);
        i := i + 1;
      }
      r := stats;
    }
  }

  // ------------------------------------------------------- the expiry loop deletes what it collected

  predicate Distinct(es: seq<Entry>) {
    forall i, j :: 0 <= i < j < |es| ==> es[i].url != es[j].url
  }

  function DeleteUrl(es: seq<Entry>, url: string): seq<Entry> {
    var i := IndexOf(es, url);
    if i < |es| then Without(es, i) else es
  }

  /** es without the entries in gone. */
  function Filter(es: seq<Entry>, gone: seq<Entry>): seq<Entry> {
    if es == [] then []
    else if es[0] in gone then Filter(es[1..], gone)
    else [es[0]] + Filter(es[1..], gone)
  }

  lemma {:induction false} SelectMembers(es: seq<Entry>, cutoff: real, stale: bool)
    ensures forall e :: e in Select(es, cutoff, stale) <==> e in es && Stale(e, cutoff) == stale
  {
    if es != [] {
      SelectMembers(es[1..], cutoff, stale);
      assert es == [es[0]] + es[1..];
    }
  }

  lemma {:induction false} SelectIsFilter(es: seq<Entry>, gone: seq<Entry>, cutoff: real)
    requires forall e :: e in es ==> (e in gone <==> Stale(e, cutoff))
    ensures Filter(es, gone) == Select(es, cutoff, false)
  {
    if es != [] {
      SelectIsFilter(es[1..], gone, cutoff);
    }
  }

  /** What the sweep collected, it collected once. */
  lemma {:induction false} StaleOnce(es: seq<Entry>, cutoff: real, k: nat)
    requires Distinct(es) && k < |Select(es, cutoff, true)|
    ensures Select(es, cutoff, true)[k] in es && Select(es, cutoff, true)[k] !in Select(es, cutoff, true)[..k]
  {
    var stale, rest := Select(es, cutoff, true), Select(es[1..], cutoff, true);
    SelectMembers(es, cutoff, true);
    SelectMembers(es[1..], cutoff, true);
    if stale == rest {
      StaleOnce(es[1..], cutoff, k);
    } else if k > 0 {
      StaleOnce(es[1..], cutoff, k - 1);
      assert stale[..k] == [es[0]] + rest[..k - 1];
      assert es[0] !in es[1..];
    }
  }

  /** Deleting by url takes out exactly the entry that was collected. */
  lemma {:induction false} DeleteOne(es: seq<Entry>, gone: seq<Entry>, x: Entry)
    requires Distinct(es) && x in es && x !in gone
    ensures DeleteUrl(Filter(es, gone), x.url) == Filter(es, gone + [x])
  {
    var rest := es[1..];
    assert es == [es[0]] + rest;
    if es[0] == x {
      assert x !in rest;
      FilterSkips(rest, gone, x);
      DeleteHead(x, Filter(rest, gone), x.url);
    } else {
      DeleteOne(rest, gone, x);
      DeleteHead(es[0], Filter(rest, gone), x.url);
      NotTheHead(es, x);
    }
  }

  lemma NotTheHead(es: seq<Entry>, x: Entry)
    requires Distinct(es) && es != [] && x in es[1..]
    ensures es[0].url != x.url
  {
    var i :| 0 <= i < |es[1..]| && es[1..][i] == x;
    assert es[i + 1] == x;
  }

  lemma DeleteHead(h: Entry, f: seq<Entry>, url: string)
    ensures DeleteUrl([h] + f, url) == if h.url == url then f else [h] + DeleteUrl(f, url)
  {
    var all := [h] + f;
    assert all[1..] == f;
    var i := IndexOf(f, url);
    if h.url != url && i < |f| {
      assert Without(all, i + 1) == [h] + Without(f, i);
    }
  }

  lemma {:induction false} FilterNothing(es: seq<Entry>)
    ensures Filter(es, []) == es
  {
    if es != [] {
      FilterNothing(es[1..]);
    }
  }

  lemma {:induction false} FilterSkips(es: seq<Entry>, gone: seq<Entry>, x: Entry)
    requires x !in es
    ensures Filter(es, gone + [x]) == Filter(es, gone)
  {
    if es != [] {
      FilterSkips(es[1..], gone, x);
    }
  }

  /** Everything collected is there, and is collected once. */
  predicate OnceEach(es: seq<Entry>, stale: seq<Entry>) {
    forall k :: 0 <= k < |stale| ==> stale[k] in es && stale[k] !in stale[..k]
  }

  lemma SweepIsExpire(es: seq<Entry>, cutoff: real)
    requires Distinct(es)
    ensures OnceEach(es, Select(es, cutoff, true))
    ensures Filter(es, Select(es, cutoff, true)) == Select(es, cutoff, false)
  {
    SelectMembers(es, cutoff, true);
    SelectIsFilter(es, Select(es, cutoff, true), cutoff);
    forall k | 0 <= k < |Select(es, cutoff, true)|
      ensures Select(es, cutoff, true)[k] in es && Select(es, cutoff, true)[k] !in Select(es, cutoff, true)[..k]
    {
      StaleOnce(es, cutoff, k);
    }
  }

  lemma {:induction false} SweepStep(v: CacheVal, es: seq<Entry>, stale: seq<Entry>, k: nat)
    requires Distinct(es) && OnceEach(es, stale) && k < |stale|
    ensures DeleteUrl(Filter(es, stale[..k]), stale[k].url) == Filter(es, stale[..k + 1])
    ensures ExpireAll(v.(entries := es), stale[k..]) ==
        ExpireAll(ExpireOne(v, stale[k]).(entries := es), stale[k + 1..])
  {
    DeleteOne(es, stale[..k], stale[k]);
    assert stale[..k + 1] == stale[..k] + [stale[k]];
    assert stale[k..][1..] == stale[k + 1..];
  }

  lemma {:induction false} SweepKeepsEntries(v: CacheVal, stale: seq<Entry>)
    ensures ExpireAll(v, stale).entries == v.entries
    decreases |stale|
  {
    if stale != [] {
      SweepKeepsEntries(ExpireOne(v, stale[0]), stale[1..]);
    }
  }

  // ------------------------------------------------------------- one entry per url, after every call

  lemma {:induction false} SelectDistinct(es: seq<Entry>, cutoff: real, stale: bool)
    requires Distinct(es)
    ensures Distinct(Select(es, cutoff, stale))
  {
    if es != [] {
      SelectDistinct(es[1..], cutoff, stale);
      SelectMembers(es[1..], cutoff, stale);
      forall x | x in Select(es[1..], cutoff, stale) ensures x.url != es[0].url {
        NotTheHead(es, x);
      }
    }
  }

  lemma DistinctWithout(es: seq<Entry>, i: nat)
    requires Distinct(es) && i < |es|
    ensures Distinct(Without(es, i)) && forall e <- Without(es, i) :: e.url != es[i].url
  {
    var r := Without(es, i);
    forall j, k | 0 <= j < k < |r| ensures r[j].url != r[k].url {
      assert r[j] == es[if j < i then j else j + 1] && r[k] == es[if k < i then k else k + 1];
    }
    forall j | 0 <= j < |r| ensures r[j].url != es[i].url {
      assert r[j] == es[if j < i then j else j + 1];
    }
  }

  lemma ExpireDistinct(ttl: real, v: CacheVal, now: real)
    requires Distinct(v.entries)
    ensures Distinct(AfterExpire(ttl, v, now).entries)
  {
    if ttl > 0.0 {
      SelectDistinct(v.entries, now - ttl, false);
    }
  }

  lemma {:induction false} EvictDistinct(capacity: nat, v: CacheVal)
    requires Distinct(v.entries)
    ensures Distinct(Evict(capacity, v).entries)
    decreases |v.entries|
  {
    if v.used > capacity && v.entries != [] {
      EvictDistinct(capacity, EvictOne(v));
    }
  }

  lemma GetDistinct(ttl: real, v: CacheVal, url: string, now: real)
    requires Distinct(v.entries)
    ensures Distinct(AfterGet(ttl, v, url, now).entries)
  {
    ExpireDistinct(ttl, v, now);
    var v1 := AfterExpire(ttl, v, now);
    if Holds(v1.entries, url) {
      DistinctWithout(v1.entries, IndexOf(v1.entries, url));
    }
  }

  lemma PutDistinct(capacity: nat, ttl: real, v: CacheVal, e: Entry, now: real, stampedAt: real)
    requires Distinct(v.entries)
    ensures Distinct(AfterPut(capacity, ttl, v, e, now, stampedAt).entries)
  {
    ExpireDistinct(ttl, v, now);
    var v1 := AfterExpire(ttl, v, now);
    if Holds(v1.entries, e.url) {
      DistinctWithout(v1.entries, IndexOf(v1.entries, e.url));
    }
    EvictDistinct(capacity, Attach(Detach(v1, e.url), Stamp(v1, e, stampedAt)));
  }
}
