/** Page by page: what the statistics count as a first use, and what as waste. */
module CacheLedger {
  import opened PageCache
  import opened CacheAccounting

  function Numbers(booked: seq<Booking>): set<nat> { set b <- booked :: b.number }

  /** No push is booked twice, be it as used or as wasted. */
  ghost predicate BookedOnce(l: Ledger) {
    && (forall i, j :: 0 <= i < j < |l.booked| ==> l.booked[i].number != l.booked[j].number)
    && (forall b <- l.booked :: b.number < l.pushes)
  }

  /** The pushed pages held are known by different numbers, and the unread ones are not booked. */
  ghost predicate Tracked(es: seq<Entry>, l: Ledger) {
    && (forall e <- es :: e.pushed ==> e.url in l.numbers && l.numbers[e.url] < l.pushes)
    && (forall e <- es :: Unread(e) ==> NumberOf(l, e.url) !in Numbers(l.booked))
    && (forall d, e :: d in es && e in es && d.pushed && e.pushed && d.url != e.url ==>
          NumberOf(l, d.url) != NumberOf(l, e.url))
  }

  ghost predicate Kept(es: seq<Entry>, l: Ledger) { BookedOnce(l) && Tracked(es, l) }

  /** What rest holds instead of es: entries of es with another url than e, or e itself read once more. */
  ghost predicate Besides(rest: seq<Entry>, es: seq<Entry>, e: Entry) {
    forall x <- rest :: (x in es && x.url != e.url) || x == e.(hits := e.hits + 1)
  }

  lemma BookKept(es: seq<Entry>, l: Ledger, e: Entry, wasted: bool, rest: seq<Entry>)
    requires Kept(es, l) && e in es && Unread(e) && Besides(rest, es, e)
    ensures Kept(rest, Book(l, e, wasted))
  {
    var l1 := Book(l, e, wasted);
    assert l1.booked[|l.booked|].number == NumberOf(l, e.url);
    forall b <- l.booked ensures b.number != NumberOf(l, e.url) {
      assert b.number in Numbers(l.booked);
    }
    assert Numbers(l1.booked) <= Numbers(l.booked) + {NumberOf(l, e.url)};
  }

  lemma FewerKept(es: seq<Entry>, l: Ledger, rest: seq<Entry>)
    requires Kept(es, l) && forall x <- rest :: x in es
    ensures Kept(rest, l)
  {
    hide Numbers;
  }

  lemma ReadKept(es: seq<Entry>, l: Ledger, e: Entry, rest: seq<Entry>)
    requires Kept(es, l) && e in es && !Unread(e) && Besides(rest, es, e)
    ensures Kept(rest, l)
  {
    hide Numbers;
  }

  lemma EnrolKept(es: seq<Entry>, l: Ledger, e: Entry)
    requires Kept(es, l) && forall x <- es :: x.url != e.url
    ensures Kept(es + [e], if e.pushed then Enrol(l, e.url) else l)
  {
    if e.pushed {
      forall b <- l.booked ensures b.number != l.pushes {}
    }
  }

  // ---------------------------------------------------------------------------------- operations

  ghost predicate Ok(v: CacheVal) { Distinct(v.entries) && Kept(v.entries, v.ledger) }

  lemma {:induction false} ExpireAllKept(v: CacheVal, stale: seq<Entry>, kept: seq<Entry>)
    requires Kept(stale + kept, v.ledger) && Distinct(stale) && (forall x <- stale :: Unread(x))
    requires forall x, y :: x in stale && y in kept ==> x.url != y.url
    ensures Kept(kept, ExpireAll(v, stale).ledger)
    decreases |stale|
  {
    if stale == [] {
      assert stale + kept == kept;
    } else {
      var x, rest := stale[0], stale[1..];
      assert x in stale;
      forall y <- rest ensures y.url != x.url {
        var i :| 0 <= i < |rest| && rest[i] == y;
        assert stale[i + 1] == y;
      }
      assert Besides(rest + kept, stale + kept, x);
      BookKept(stale + kept, v.ledger, x, true, rest + kept);
      ExpireAllKept(ExpireOne(v, x), rest, kept);
      hide Kept, Besides;
    }
  }

  lemma {:induction false} SelectApart(es: seq<Entry>, cutoff: real)
    requires Distinct(es)
    ensures forall x, y :: x in Select(es, cutoff, true) && y in Select(es, cutoff, false) ==> x.url != y.url
  {
    SelectMembers(es, cutoff, true);
    SelectMembers(es, cutoff, false);
    hide Select;
    forall x, y | x in es && y in es && x != y ensures x.url != y.url {
      var i :| 0 <= i < |es| && es[i] == x;
      var j :| 0 <= j < |es| && es[j] == y;
    }
  }

  lemma ExpireOk(ttl: real, v: CacheVal, now: real)
    requires Ok(v)
    ensures Ok(AfterExpire(ttl, v, now))
  {
    if ttl > 0.0 {
      var cutoff := now - ttl;
      var stale, kept := Select(v.entries, cutoff, true), Select(v.entries, cutoff, false);
      SelectMembers(v.entries, cutoff, true);
      SelectMembers(v.entries, cutoff, false);
      SelectDistinct(v.entries, cutoff, true);
      SelectDistinct(v.entries, cutoff, false);
      SelectApart(v.entries, cutoff);
      hide Select, ExpireAll;
      FewerKept(v.entries, v.ledger, stale + kept);
      ExpireAllKept(v, stale, kept);
      hide Kept;
    }
  }

  lemma HitOk(v: CacheVal, i: nat)
    requires Ok(v) && i < |v.entries|
    ensures Ok(Hit(v, i))
  {
    var e, rest := v.entries[i], Without(v.entries, i);
    var read := rest + [e.(hits := e.hits + 1)];
    DistinctWithout(v.entries, i);
    assert forall x <- rest :: x in v.entries;
    hide Without;
    assert Besides(read, v.entries, e);
    if Unread(e) {
      BookKept(v.entries, v.ledger, e, false, read);
    } else {
      ReadKept(v.entries, v.ledger, e, read);
    }
    hide Kept, Besides;
  }

  lemma DetachOk(v: CacheVal, url: string)
    requires Ok(v)
    ensures Ok(Detach(v, url)) && forall e <- Detach(v, url).entries :: e.url != url
  {
    var i := IndexOf(v.entries, url);
    if i < |v.entries| {
      DistinctWithout(v.entries, i);
      FewerKept(v.entries, v.ledger, Without(v.entries, i));
    }
    hide Kept;
  }

  lemma AttachOk(v: CacheVal, e: Entry)
    requires Ok(v) && forall x <- v.entries :: x.url != e.url
    ensures Ok(Attach(v, e))
  {
    EnrolKept(v.entries, v.ledger, e);
    hide Kept;
  }

  lemma EvictOneOk(v: CacheVal)
    requires Ok(v) && v.entries != []
    ensures Ok(EvictOne(v))
  {
    var e, rest := v.entries[0], v.entries[1..];
    FewerKept(v.entries, v.ledger, rest);
    if Unread(e) {
      forall x <- rest ensures x.url != e.url {
        var i :| 0 <= i < |rest| && rest[i] == x;
        assert v.entries[i + 1] == x;
      }
      BookKept(v.entries, v.ledger, e, true, rest);
    }
    hide Kept;
  }

  lemma {:induction false} EvictOk(capacity: nat, v: CacheVal)
    requires Ok(v)
    ensures Ok(Evict(capacity, v))
    decreases |v.entries|
  {
    hide Ok, EvictOne;
    if v.used > capacity && v.entries != [] {
      EvictOneOk(v);
      EvictShrinks(v);
      EvictOk(capacity, EvictOne(v));
    }
  }

  lemma EvictShrinks(v: CacheVal)
    requires v.entries != []
    ensures |EvictOne(v).entries| < |v.entries|
  {}

  lemma StoreOk(capacity: nat, v: CacheVal, e: Entry, now: real)
    requires Ok(v)
    ensures Ok(Store(capacity, v, e, now))
  {
    hide Ok, Attach, Detach, Evict;
    DetachOk(v, e.url);
    AttachOk(Detach(v, e.url), Stamp(v, e, now));
    EvictOk(capacity, Attach(Detach(v, e.url), Stamp(v, e, now)));
  }

  lemma ApplyOk(capacity: nat, ttl: real, v: CacheVal, op: Op)
    requires Ok(v)
    ensures Ok(Apply(capacity, ttl, v, op))
  {
    hide Ok, Store, Hit, AfterExpire;
    var v1 := AfterExpire(ttl, v, op.now);
    ExpireOk(ttl, v, op.now);
    match op {
      case OpGet(url, _) =>
        if IndexOf(v1.entries, url) < |v1.entries| {
          HitOk(v1, IndexOf(v1.entries, url));
        } else {
          OnlyStats(v1, v1.stats.(misses := v1.stats.misses + 1));
        }
      case OpPeek(_) =>
      case OpPut(e, _, stampedAt) => StoreOk(capacity, v1, e, stampedAt);
    }
  }

  lemma OnlyStats(v: CacheVal, s: Stats)
    requires Ok(v)
    ensures Ok(v.(stats := s))
  {}

  lemma {:induction false} RunOk(capacity: nat, ttl: real, ops: seq<Op>)
    ensures Ok(Run(capacity, ttl, ops))
  {
    if ops != [] {
      RunOk(capacity, ttl, ops[..|ops| - 1]);
      ApplyOk(capacity, ttl, Run(capacity, ttl, ops[..|ops| - 1]), ops[|ops| - 1]);
      hide Ok, Apply;
    }
  }

  lemma {:induction false} WasteAllOnce(v: CacheVal, es: seq<Entry>)
    requires Distinct(es) && Kept(es, v.ledger)
    ensures BookedOnce(WasteAll(v, es).ledger)
    decreases |es|
  {
    if es != [] {
      var e, rest := es[0], es[1..];
      forall x <- rest ensures x.url != e.url {
        var i :| 0 <= i < |rest| && rest[i] == x;
        assert es[i + 1] == x;
      }
      if Unread(e) {
        BookKept(es, v.ledger, e, true, rest);
      } else {
        FewerKept(es, v.ledger, rest);
      }
      WasteAllOnce(Waste(v, e), rest);
    }
    hide Tracked, Besides;
  }

  // ------------------------------------------------------------------------------- the statistics

  function Count(booked: seq<Booking>, wasted: bool): nat {
    if booked == [] then 0
    else Count(booked[..|booked| - 1], wasted) + if booked[|booked| - 1].wasted == wasted then 1 else 0
  }

  function WastedSize(booked: seq<Booking>): nat {
    if booked == [] then 0
    else WastedSize(booked[..|booked| - 1]) + if booked[|booked| - 1].wasted then booked[|booked| - 1].size else 0
  }

  /** The counters are the bookings, counted. */
  ghost predicate Agree(v: CacheVal) {
    && v.stats.pushHits == Count(v.ledger.booked, false)
    && v.stats.wastedBytes == WastedSize(v.ledger.booked)
    && v.audit.wastes == Count(v.ledger.booked, true)
    && v.audit.pushes == v.ledger.pushes
  }

  lemma BookSnoc(booked: seq<Booking>, b: Booking)
    ensures Count(booked + [b], b.wasted) == Count(booked, b.wasted) + 1
    ensures Count(booked + [b], !b.wasted) == Count(booked, !b.wasted)
    ensures WastedSize(booked + [b]) == WastedSize(booked) + if b.wasted then b.size else 0
  {
    assert (booked + [b])[..|booked|] == booked;
  }

  lemma WasteAgrees(v: CacheVal, e: Entry)
    requires Agree(v)
    ensures Agree(Waste(v, e))
  {
    BookSnoc(v.ledger.booked, Booking(NumberOf(v.ledger, e.url), Size(e), true));
  }

  lemma {:induction false} ExpireAllAgrees(v: CacheVal, stale: seq<Entry>)
    requires Agree(v)
    ensures Agree(ExpireAll(v, stale))
    decreases |stale|
  {
    if stale != [] {
      WasteAgrees(v.(used := v.used - Size(stale[0]),
                     stats := v.stats.(expiredBytes := v.stats.expiredBytes + Size(stale[0]))), stale[0]);
      ExpireAllAgrees(ExpireOne(v, stale[0]), stale[1..]);
      hide Waste, Agree;
    }
  }

  lemma {:induction false} EvictAgrees(capacity: nat, v: CacheVal)
    requires Agree(v)
    ensures Agree(Evict(capacity, v))
    decreases |v.entries|
  {
    if v.used > capacity && v.entries != [] {
      var e := v.entries[0];
      WasteAgrees(v.(entries := v.entries[1..], used := v.used - Size(e)), e);
      EvictAgrees(capacity, EvictOne(v));
      hide Evict;
    }
  }

  lemma {:induction false} WasteAllAgrees(v: CacheVal, es: seq<Entry>)
    requires Agree(v)
    ensures Agree(WasteAll(v, es))
    decreases |es|
  {
    if es != [] {
      WasteAgrees(v, es[0]);
      WasteAllAgrees(Waste(v, es[0]), es[1..]);
      hide Waste, Agree;
    }
  }

  lemma HitAgrees(v: CacheVal, i: nat)
    requires Agree(v) && i < |v.entries|
    ensures Agree(Hit(v, i))
  {
    var e := v.entries[i];
    BookSnoc(v.ledger.booked, Booking(NumberOf(v.ledger, e.url), Size(e), false));
  }

  lemma StoreAgrees(capacity: nat, v: CacheVal, e: Entry, now: real)
    requires Agree(v)
    ensures Agree(Store(capacity, v, e, now))
  {
    EvictAgrees(capacity, Attach(Detach(v, e.url), Stamp(v, e, now)));
    hide Evict;
  }

  lemma ApplyAgrees(capacity: nat, ttl: real, v: CacheVal, op: Op)
    requires Agree(v)
    ensures Agree(Apply(capacity, ttl, v, op))
  {
    hide Store, Hit;
    var v1 := AfterExpire(ttl, v, op.now);
    assert Agree(v1) by {
      ExpireAllAgrees(v, Select(v.entries, op.now - ttl, true));
      hide ExpireAll, Count, WastedSize;
    }
    hide AfterExpire;
    match op {
      case OpGet(url, _) =>
        if IndexOf(v1.entries, url) < |v1.entries| {
          HitAgrees(v1, IndexOf(v1.entries, url));
        }
      case OpPeek(_) =>
      case OpPut(e, _, stampedAt) => StoreAgrees(capacity, v1, e, stampedAt);
    }
  }

  lemma {:induction false} RunAgrees(capacity: nat, ttl: real, ops: seq<Op>)
    ensures Agree(Run(capacity, ttl, ops))
  {
    if ops != [] {
      RunAgrees(capacity, ttl, ops[..|ops| - 1]);
      ApplyAgrees(capacity, ttl, Run(capacity, ttl, ops[..|ops| - 1]), ops[|ops| - 1]);
      hide Agree, Apply;
    }
  }

  // --------------------------------------------------------------------------------------- theorem

  /** Over every run no push is counted twice, neither both as used and as wasted nor twice as either: the
      statistics are the counts, and the bytes, of bookings of which each names another push.  That holds
      before and after finalize. */
  lemma {:induction false} UsedOrWastedOnce(capacity: nat, ttl: real, ops: seq<Op>)
    ensures var v := Run(capacity, ttl, ops);
            && BookedOnce(v.ledger) && Agree(v)
            && BookedOnce(AfterFinalize(v).ledger) && Agree(AfterFinalize(v))
  {
    var v := Run(capacity, ttl, ops);
    RunOk(capacity, ttl, ops);
    RunAgrees(capacity, ttl, ops);
    WasteAllOnce(v, v.entries);
    WasteAllAgrees(v, v.entries);
    hide Run, WasteAll, Agree, BookedOnce, Tracked;
  }
}
