/** Over every sequence of cache operations: the byte budget holds, and every pushed byte is accounted for
    exactly once. */
module CacheAccounting {
  import opened PageCache

  datatype Kind = AllBytes | PushedBytes | PushedCount | ReadBytes | ReadCount

  function Weight(k: Kind, e: Entry): nat {
    match k
    case AllBytes => Size(e)
    case PushedBytes => if e.pushed then Size(e) else 0
    case PushedCount => if e.pushed then 1 else 0
    case ReadBytes => if e.pushed && e.hits > 0 then Size(e) else 0
    case ReadCount => if e.pushed && e.hits > 0 then 1 else 0
  }

  function Sum(k: Kind, es: seq<Entry>): nat {
    if es == [] then 0 else Weight(k, es[0]) + Sum(k, es[1..])
  }

  lemma {:induction false} SumAppend(k: Kind, a: seq<Entry>, b: seq<Entry>)
    ensures Sum(k, a + b) == Sum(k, a) + Sum(k, b)
  {
    if a == [] {
      assert a + b == b;
    } else {
      SumAppend(k, a[1..], b);
      assert (a + b)[1..] == a[1..] + b;
    }
  }

  lemma SumLast(k: Kind, es: seq<Entry>, e: Entry)
    ensures Sum(k, es + [e]) == Sum(k, es) + Weight(k, e)
  {
    SumAppend(k, es, [e]);
  }

  lemma SumWithout(k: Kind, es: seq<Entry>, i: nat)
    requires i < |es|
    ensures Sum(k, es) == Sum(k, Without(es, i)) + Weight(k, es[i])
  {
    assert es == es[..i] + es[i..];
    SumAppend(k, es[..i], es[i..]);
    SumAppend(k, es[..i], es[i + 1..]);
    assert es[i..][1..] == es[i + 1..];
  }

  lemma {:induction false} SumSelect(k: Kind, es: seq<Entry>, cutoff: real)
    ensures Sum(k, es) == Sum(k, Select(es, cutoff, true)) + Sum(k, Select(es, cutoff, false))
  {
    if es != [] {
      SumSelect(k, es[1..], cutoff);
      var s := Stale(es[0], cutoff);
      assert Select(es, cutoff, s)[1..] == Select(es[1..], cutoff, s);
    }
  }

  // ----------------------------------------------------------------------------------------- balance

  /** Every pushed byte was wasted, is still held, was read and later evicted, or was replaced; likewise
      every pushed page; and first uses are counted only for pages that were not wasted. */
  ghost predicate Balanced(entries: seq<Entry>, used: int, s: Stats, a: Audit) {
    && Distinct(entries)
    && used == Sum(AllBytes, entries)
    && s.pushedBytes == s.wastedBytes + Sum(PushedBytes, entries) + a.readOutBytes + a.supersededBytes
    && a.pushes == a.wastes + Sum(PushedCount, entries) + a.readOut + a.superseded
    && s.pushHits <= Sum(ReadCount, entries) + a.readOut + a.superseded
    && s.expiredBytes <= s.wastedBytes
  }

  ghost predicate Bal(v: CacheVal) { Balanced(v.entries, v.used, v.stats, v.audit) }

  lemma {:induction false} ExpireAllCounts(v: CacheVal, stale: seq<Entry>)
    requires forall e <- stale :: Unread(e)
    ensures var w := ExpireAll(v, stale);
            && w.entries == v.entries && w.used == v.used - Sum(AllBytes, stale)
            && w.stats == v.stats.(wastedBytes := v.stats.wastedBytes + Sum(PushedBytes, stale),
                                   expiredBytes := v.stats.expiredBytes + Sum(PushedBytes, stale))
            && w.audit == v.audit.(wastes := v.audit.wastes + Sum(PushedCount, stale))
    ensures Sum(ReadCount, stale) == 0
    decreases |stale|
  {
    if stale != [] {
      assert stale[0] in stale;
      ExpireAllCounts(ExpireOne(v, stale[0]), stale[1..]);
    }
  }

  lemma ExpireBalanced(ttl: real, v: CacheVal, now: real)
    requires Bal(v)
    ensures Bal(AfterExpire(ttl, v, now)) && AfterExpire(ttl, v, now).used <= v.used
  {
    if ttl > 0.0 {
      var cutoff := now - ttl;
      var stale, kept := Select(v.entries, cutoff, true), Select(v.entries, cutoff, false);
      SelectMembers(v.entries, cutoff, true);
      ExpireAllCounts(v, stale);
      SelectDistinct(v.entries, cutoff, false);
      SumSelect(AllBytes, v.entries, cutoff);
      SumSelect(PushedBytes, v.entries, cutoff);
      SumSelect(PushedCount, v.entries, cutoff);
      SumSelect(ReadCount, v.entries, cutoff);
    }
  }

  lemma HitBalanced(v: CacheVal, i: nat)
    requires Bal(v) && i < |v.entries|
    ensures Bal(Hit(v, i)) && Hit(v, i).used == v.used
  {
    var e := v.entries[i];
    var rest, e1 := Without(v.entries, i), e.(hits := e.hits + 1);
    DistinctWithout(v.entries, i);
    HitSum(AllBytes, v.entries, i);
    HitSum(PushedBytes, v.entries, i);
    HitSum(PushedCount, v.entries, i);
    HitSum(ReadCount, v.entries, i);
  }

  lemma HitSum(k: Kind, es: seq<Entry>, i: nat)
    requires i < |es|
    ensures var e1 := es[i].(hits := es[i].hits + 1);
            Sum(k, Without(es, i) + [e1]) + Weight(k, es[i]) == Sum(k, es) + Weight(k, e1)
  {
    SumWithout(k, es, i);
    SumLast(k, Without(es, i), es[i].(hits := es[i].hits + 1));
  }

  lemma DetachBalanced(v: CacheVal, url: string)
    requires Bal(v)
    ensures Bal(Detach(v, url)) && Detach(v, url).used <= v.used
    ensures forall e <- Detach(v, url).entries :: e.url != url
  {
    var i := IndexOf(v.entries, url);
    if i < |v.entries| {
      DistinctWithout(v.entries, i);
      SumWithout(AllBytes, v.entries, i);
      SumWithout(PushedBytes, v.entries, i);
      SumWithout(PushedCount, v.entries, i);
      SumWithout(ReadCount, v.entries, i);
    }
  }

  lemma AttachBalanced(v: CacheVal, e: Entry)
    requires Bal(v) && forall x <- v.entries :: x.url != e.url
    ensures Bal(Attach(v, e))
  {
    SumLast(AllBytes, v.entries, e);
    SumLast(PushedBytes, v.entries, e);
    SumLast(PushedCount, v.entries, e);
    SumLast(ReadCount, v.entries, e);
  }

  lemma EvictOneBalanced(v: CacheVal)
    requires Bal(v) && v.entries != []
    ensures Bal(EvictOne(v))
  {}

  lemma {:induction false} EvictBalanced(capacity: nat, v: CacheVal)
    requires Bal(v)
    ensures Bal(Evict(capacity, v)) && Evict(capacity, v).used <= capacity
    decreases |v.entries|
  {
    if v.used > capacity && v.entries != [] {
      EvictOneBalanced(v);
      EvictBalanced(capacity, EvictOne(v));
    }
  }

  lemma StoreBalanced(capacity: nat, v: CacheVal, e: Entry, now: real)
    requires Bal(v) && v.used <= capacity
    ensures Bal(Store(capacity, v, e, now)) && Store(capacity, v, e, now).used <= capacity
  {
    hide Balanced;
    if Size(e) <= capacity {
      DetachBalanced(v, e.url);
      AttachBalanced(Detach(v, e.url), Stamp(v, e, now));
      EvictBalanced(capacity, Attach(Detach(v, e.url), Stamp(v, e, now)));
    }
  }

  // ------------------------------------------------------------------------------------------- runs

  datatype Op = OpGet(url: string, now: real) | OpPeek(now: real) | OpPut(entry: Entry, now: real, stampedAt: real)

  function Apply(capacity: nat, ttl: real, v: CacheVal, op: Op): CacheVal {
    match op
    case OpGet(url, now) => AfterGet(ttl, v, url, now)
    case OpPeek(now) => AfterExpire(ttl, v, now)
    case OpPut(e, now, stampedAt) => AfterPut(capacity, ttl, v, e, now, stampedAt)
  }

  function Run(capacity: nat, ttl: real, ops: seq<Op>): CacheVal {
    if ops == [] then EMPTY else Apply(capacity, ttl, Run(capacity, ttl, ops[..|ops| - 1]), ops[|ops| - 1])
  }

  /** After any operations, at any clock readings, whatever was put: the entries fit the capacity, `used` is
      their size, and pushed bytes and pages are wasted, held, read-then-evicted or superseded, each once. */
  lemma {:induction false} AlwaysBalanced(capacity: nat, ttl: real, ops: seq<Op>)
    ensures var v := Run(capacity, ttl, ops);
            Balanced(v.entries, v.used, v.stats, v.audit) && v.used <= capacity
  {
    if ops != [] {
      var v, op := Run(capacity, ttl, ops[..|ops| - 1]), ops[|ops| - 1];
      AlwaysBalanced(capacity, ttl, ops[..|ops| - 1]);
      ApplyBalanced(capacity, ttl, v, op);
    }
  }

  lemma ApplyBalanced(capacity: nat, ttl: real, v: CacheVal, op: Op)
    requires Bal(v) && v.used <= capacity
    ensures Bal(Apply(capacity, ttl, v, op)) && Apply(capacity, ttl, v, op).used <= capacity
  {
    hide Store, Hit, AfterExpire;
    var v1 := AfterExpire(ttl, v, op.now);
    ExpireBalanced(ttl, v, op.now);
    match op {
      case OpGet(url, _) =>
        if IndexOf(v1.entries, url) < |v1.entries| {
          HitBalanced(v1, IndexOf(v1.entries, url));
        }
      case OpPeek(_) =>
      case OpPut(e, _, stampedAt) => StoreBalanced(capacity, v1, e, stampedAt);
    }
  }

  lemma {:induction false} WasteAllCounts(v: CacheVal, es: seq<Entry>)
    ensures var w := WasteAll(v, es);
            && w.entries == v.entries && w.used == v.used
            && w.stats == v.stats.(wastedBytes := w.stats.wastedBytes)
            && w.stats.wastedBytes + Sum(ReadBytes, es) == v.stats.wastedBytes + Sum(PushedBytes, es)
            && w.audit == v.audit.(wastes := w.audit.wastes)
            && w.audit.wastes + Sum(ReadCount, es) == v.audit.wastes + Sum(PushedCount, es)
    decreases |es|
  {
    if es != [] {
      WasteAllCounts(Waste(v, es[0]), es[1..]);
    }
  }

  /** After the one call of finalize at the end, nothing pushed is left open: each byte is wasted, read and
      held, read and evicted, or superseded. */
  lemma FinalAccount(capacity: nat, ttl: real, ops: seq<Op>)
    ensures var v := AfterFinalize(Run(capacity, ttl, ops));
            && v.stats.pushedBytes == v.stats.wastedBytes + Sum(ReadBytes, v.entries) + v.audit.readOutBytes +
                v.audit.supersededBytes
            && v.stats.expiredBytes <= v.stats.wastedBytes <= v.stats.pushedBytes
  {
    AlwaysBalanced(capacity, ttl, ops);
    var v := Run(capacity, ttl, ops);
    WasteAllCounts(v, v.entries);
    ReadAtMostPushed(v.entries);
  }

  /** First uses and wasted pages together are never more than the pushes. */
  lemma UsedOrWasted(capacity: nat, ttl: real, ops: seq<Op>)
    ensures var v := Run(capacity, ttl, ops);
            && v.stats.pushHits + v.audit.wastes <= v.audit.pushes
            && AfterFinalize(v).stats.pushHits + AfterFinalize(v).audit.wastes <= v.audit.pushes
  {
    AlwaysBalanced(capacity, ttl, ops);
    var v := Run(capacity, ttl, ops);
    WasteAllCounts(v, v.entries);
    ReadAtMostPushed(v.entries);
  }

  lemma {:induction false} ReadAtMostPushed(es: seq<Entry>)
    ensures Sum(ReadCount, es) <= Sum(PushedCount, es) && Sum(ReadBytes, es) <= Sum(PushedBytes, es)
  {
    if es != [] {
      ReadAtMostPushed(es[1..]);
    }
  }

  // --------------------------------------------------------------------------------- hits and misses

  datatype Reading = HeldAnyhow | HeldUnread | NotHeld

  /** How the last operation, if it was a get, found its page. */
  ghost predicate Finds(ttl: real, v: CacheVal, op: Op, how: Reading) {
    op.OpGet? && var es := AfterExpire(ttl, v, op.now).entries;
                 match how
                 case HeldAnyhow => exists e <- es :: e.url == op.url
                 case HeldUnread => exists e <- es :: e.url == op.url && e.pushed && e.hits == 0
                 case NotHeld => forall e <- es :: e.url != op.url
  }

  /** How many gets of the run found their page so. */
  ghost function Gets(capacity: nat, ttl: real, ops: seq<Op>, how: Reading): nat {
    if ops == [] then 0
    else
      var front := ops[..|ops| - 1];
      Gets(capacity, ttl, front, how) + if Finds(ttl, Run(capacity, ttl, front), ops[|ops| - 1], how) then 1 else 0
  }

  /** The bytes of the puts of pushed pages that were not too large. */
  function PutBytes(capacity: nat, ops: seq<Op>): nat {
    if ops == [] then 0
    else
      var last := ops[|ops| - 1];
      PutBytes(capacity, ops[..|ops| - 1]) +
        if last.OpPut? && last.entry.pushed && Size(last.entry) <= capacity then Size(last.entry) else 0
  }

  /** The bytes of the prefetched pages that nobody has read and that were stored before the cutoff. */
  function OldBytes(es: seq<Entry>, cutoff: real): nat {
    if es == [] then 0
    else
      OldBytes(es[1..], cutoff) + if es[0].pushed && es[0].hits == 0 && es[0].storedAt < cutoff then |es[0].body| else 0
  }

  lemma {:induction false} OldBytesAreStale(es: seq<Entry>, cutoff: real)
    ensures OldBytes(es, cutoff) == Sum(PushedBytes, Select(es, cutoff, true))
  {
    if es != [] {
      OldBytesAreStale(es[1..], cutoff);
    }
  }

  /** What the operations of the run found too old, with expiry switched on. */
  function ExpiredIn(capacity: nat, ttl: real, ops: seq<Op>): nat {
    if ops == [] then 0
    else
      var front, op := ops[..|ops| - 1], ops[|ops| - 1];
      ExpiredIn(capacity, ttl, front) +
        if ttl > 0.0 then OldBytes(Run(capacity, ttl, front).entries, op.now - ttl) else 0
  }

  lemma ExpiryCounts(ttl: real, v: CacheVal, now: real)
    ensures AfterExpire(ttl, v, now).stats.expiredBytes ==
            v.stats.expiredBytes + if ttl > 0.0 then OldBytes(v.entries, now - ttl) else 0
  {
    if ttl > 0.0 {
      SelectMembers(v.entries, now - ttl, true);
      ExpireAllCounts(v, Select(v.entries, now - ttl, true));
      OldBytesAreStale(v.entries, now - ttl);
    }
    hide ExpireAll, Select, OldBytes;
  }

  lemma {:induction false} EvictExpiresNothing(capacity: nat, v: CacheVal)
    ensures Evict(capacity, v).stats.expiredBytes == v.stats.expiredBytes
    decreases |v.entries|
  {
    if v.used > capacity && v.entries != [] {
      EvictExpiresNothing(capacity, EvictOne(v));
    }
  }

  /** And the bytes counted as expired are those of prefetched pages that an operation found unread and too old. */
  lemma {:induction false} ExpiredBytesAreCounted(capacity: nat, ttl: real, ops: seq<Op>)
    ensures Run(capacity, ttl, ops).stats.expiredBytes == ExpiredIn(capacity, ttl, ops)
  {
    hide Apply, OldBytes;
    if ops != [] {
      var front, op := ops[..|ops| - 1], ops[|ops| - 1];
      ExpiredBytesAreCounted(capacity, ttl, front);
      ExpiresBytes(capacity, ttl, Run(capacity, ttl, front), op);
    }
  }

  lemma ExpiresBytes(capacity: nat, ttl: real, v: CacheVal, op: Op)
    ensures Apply(capacity, ttl, v, op).stats.expiredBytes ==
            v.stats.expiredBytes + if ttl > 0.0 then OldBytes(v.entries, op.now - ttl) else 0
  {
    hide AfterExpire, Evict, OldBytes;
    ExpiryCounts(ttl, v, op.now);
    var v1 := AfterExpire(ttl, v, op.now);
    if op.OpPut? {
      EvictExpiresNothing(capacity, Attach(Detach(v1, op.entry.url), Stamp(v1, op.entry, op.stampedAt)));
    }
  }

  /** The four counters, without what is wasted or expired. */
  predicate Counts(s: Stats, hits: nat, misses: nat, pushHits: nat, pushedBytes: nat) {
    s.hits == hits && s.misses == misses && s.pushHits == pushHits && s.pushedBytes == pushedBytes
  }

  lemma ExpireCountsNothing(ttl: real, v: CacheVal, now: real)
    ensures Counts(AfterExpire(ttl, v, now).stats, v.stats.hits, v.stats.misses, v.stats.pushHits, v.stats.pushedBytes)
  {
    if ttl > 0.0 {
      SelectMembers(v.entries, now - ttl, true);
      ExpireAllCounts(v, Select(v.entries, now - ttl, true));
    }
    hide ExpireAll, Select;
  }

  lemma {:induction false} EvictCountsNothing(capacity: nat, v: CacheVal)
    ensures Counts(Evict(capacity, v).stats, v.stats.hits, v.stats.misses, v.stats.pushHits, v.stats.pushedBytes)
    decreases |v.entries|
  {
    if v.used > capacity && v.entries != [] {
      EvictCountsNothing(capacity, EvictOne(v));
    }
  }

  lemma GetCounts(ttl: real, v: CacheVal, url: string, now: real)
    requires Distinct(v.entries)
    ensures var op, s := OpGet(url, now), AfterGet(ttl, v, url, now).stats;
            Counts(s, v.stats.hits + (if Finds(ttl, v, op, HeldAnyhow) then 1 else 0),
                   v.stats.misses + (if Finds(ttl, v, op, NotHeld) then 1 else 0),
                   v.stats.pushHits + (if Finds(ttl, v, op, HeldUnread) then 1 else 0), v.stats.pushedBytes)
  {
    var v1 := AfterExpire(ttl, v, now);
    ExpireCountsNothing(ttl, v, now);
    ExpireDistinct(ttl, v, now);
    hide AfterExpire;
    var i := IndexOf(v1.entries, url);
    if i < |v1.entries| {
      assert v1.entries[i] in v1.entries;
      forall e | e in v1.entries && e.url == url ensures e == v1.entries[i] {
        var j :| 0 <= j < |v1.entries| && v1.entries[j] == e;
      }
    }
  }

  lemma PutCounts(capacity: nat, ttl: real, v: CacheVal, e: Entry, now: real, stampedAt: real)
    ensures Counts(AfterPut(capacity, ttl, v, e, now, stampedAt).stats, v.stats.hits, v.stats.misses, v.stats.pushHits,
                   v.stats.pushedBytes + if e.pushed && Size(e) <= capacity then Size(e) else 0)
  {
    ExpireCountsNothing(ttl, v, now);
    var v1 := AfterExpire(ttl, v, now);
    EvictCountsNothing(capacity, Attach(Detach(v1, e.url), Stamp(v1, e, stampedAt)));
    hide AfterExpire, Evict;
  }

  /** Over every run the statistics tell how often a page was asked for and held, or not held, how often a
      prefetched one was held that nobody had read yet, and how many bytes were prefetched: no more, no less. */
  lemma {:induction false} StatisticsCountTheReads(capacity: nat, ttl: real, ops: seq<Op>)
    ensures var s := Run(capacity, ttl, ops).stats;
            && s.hits == Gets(capacity, ttl, ops, HeldAnyhow)
            && s.misses == Gets(capacity, ttl, ops, NotHeld)
            && s.pushHits == Gets(capacity, ttl, ops, HeldUnread)
            && s.pushedBytes == PutBytes(capacity, ops)
  {
    if ops != [] {
      var front, op := ops[..|ops| - 1], ops[|ops| - 1];
      var v := Run(capacity, ttl, front);
      StatisticsCountTheReads(capacity, ttl, front);
      AlwaysBalanced(capacity, ttl, front);
      match op {
        case OpGet(url, now) => GetCounts(ttl, v, url, now);
        case OpPeek(now) => ExpireCountsNothing(ttl, v, now);
        case OpPut(e, now, stampedAt) => PutCounts(capacity, ttl, v, e, now, stampedAt);
      }
      hide AfterGet, AfterExpire, AfterPut, Finds;
      OnlyGetsFind(ttl, v, op);
    }
  }

  lemma OnlyGetsFind(ttl: real, v: CacheVal, op: Op)
    ensures !op.OpGet? ==> forall how :: !Finds(ttl, v, op, how)
  {}
}
