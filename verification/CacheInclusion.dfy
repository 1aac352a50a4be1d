/** A bigger cache never loses a hit: with pages of fixed size and no expiry, the smaller cache holds the
    most recent end of what the larger one holds, after every sequence of references. */
module CacheInclusion {
  import opened PageCache
  import opened CacheAccounting

  // ---------------------------------------------------------------------------- what put evicts

  /** The last |b| - k entries fit, and no longer tail does: the shortest prefix had to go. */
  ghost predicate LongestFit(capacity: nat, all: seq<Entry>, kept: seq<Entry>) {
    && |kept| <= |all| && kept == all[|all| - |kept|..]
    && Sum(AllBytes, kept) <= capacity
    && (forall k :: 0 <= k < |all| - |kept| ==> Sum(AllBytes, all[k..]) > capacity)
  }

  lemma {:induction false} EvictKeepsLongestFit(capacity: nat, v: CacheVal)
    requires v.used == Sum(AllBytes, v.entries)
    ensures LongestFit(capacity, v.entries, Evict(capacity, v).entries)
    ensures Evict(capacity, v).used == Sum(AllBytes, Evict(capacity, v).entries)
    decreases |v.entries|
  {
    if v.used > capacity && v.entries != [] {
      EvictedOne(v);
      EvictKeepsLongestFit(capacity, EvictOne(v));
      hide EvictOne, LongestFit;
      FirstMustGo(capacity, v.entries, Evict(capacity, v).entries);
    } else {
      AllFit(capacity, v.entries);
    }
  }

  lemma EvictedOne(v: CacheVal)
    requires v.entries != []
    ensures EvictOne(v).entries == v.entries[1..] && EvictOne(v).used == v.used - Size(v.entries[0])
  {}

  lemma AllFit(capacity: nat, all: seq<Entry>)
    ensures all == [] || Sum(AllBytes, all) <= capacity ==> LongestFit(capacity, all, all)
  {
    assert all[0..] == all;
  }

  lemma FirstMustGo(capacity: nat, all: seq<Entry>, kept: seq<Entry>)
    requires all != [] && LongestFit(capacity, all[1..], kept) && Sum(AllBytes, all) > capacity
    ensures LongestFit(capacity, all, kept)
  {
    assert all[1..][|all| - 1 - |kept|..] == all[|all| - |kept|..];
    hide Sum;
    forall k | 0 <= k < |all| - |kept| ensures Sum(AllBytes, all[k..]) > capacity {
      if k > 0 {
        assert all[k..] == all[1..][k - 1..];
      } else {
        assert all[0..] == all;
      }
    }
  }

  /** Storing a page that fits keeps it, as the most recent entry, and evicts exactly the shortest run of
      least recently used pages that makes room. */
  lemma PutKeepsAndEvictsLeast(capacity: nat, v: CacheVal, e: Entry, now: real)
    requires Bal(v) && Size(e) <= capacity
    ensures var all := Detach(v, e.url).entries + [Stamp(v, e, now)];
            var w := Store(capacity, v, e, now);
            && LongestFit(capacity, all, w.entries)
            && w.entries != [] && w.entries[|w.entries| - 1] == Stamp(v, e, now)
  {
    var d, x := Detach(v, e.url), Stamp(v, e, now);
    DetachBalanced(v, e.url);
    SumLast(AllBytes, d.entries, x);
    EvictKeepsLongestFit(capacity, Attach(d, x));
    var all, kept := d.entries + [x], Store(capacity, v, e, now).entries;
    assert all[|d.entries|..] == [x];
    assert Sum(AllBytes, [x]) == Size(x);
    assert Sum(AllBytes, all[|d.entries|..]) <= capacity;
  }

  // -------------------------------------------------------------------------------- the references

  /** A reader's request for page e: served if held, otherwise fetched and stored. */
  function Refer(capacity: nat, v: CacheVal, e: Entry, now: real): CacheVal {
    if Holds(v.entries, e.url) then AfterGet(0.0, v, e.url, now)
    else AfterPut(capacity, 0.0, AfterGet(0.0, v, e.url, now), e, now, now)
  }

  /** A page, and the clock's reading when it is asked for. */
  datatype Ref = Ref(page: Entry, at: real)

  function ReferAll(capacity: nat, refs: seq<Ref>): CacheVal {
    if refs == [] then EMPTY
    else Refer(capacity, ReferAll(capacity, refs[..|refs| - 1]), refs[|refs| - 1].page, refs[|refs| - 1].at)
  }

  ghost predicate FixedSizes(refs: seq<Ref>, smaller: nat, size: map<string, nat>) {
    forall r <- refs :: r.page.url in size && size[r.page.url] == Size(r.page) <= smaller
  }

  /** The same pages in the same order, whatever the two clocks showed. */
  ghost predicate SamePages(a: seq<Ref>, b: seq<Ref>) {
    |a| == |b| && forall i :: 0 <= i < |a| ==> a[i].page == b[i].page
  }

  function Urls(es: seq<Entry>): (us: seq<string>)
    ensures |us| == |es| && forall i :: 0 <= i < |es| ==> us[i] == es[i].url
  {
    if es == [] then [] else [es[0].url] + Urls(es[1..])
  }

  ghost predicate Sized(es: seq<Entry>, size: map<string, nat>) {
    forall e <- es :: e.url in size && size[e.url] == Size(e)
  }

  /** The entries of the smaller cache are, page by page, the most recent ones of the larger. */
  ghost predicate Tail(small: seq<Entry>, large: seq<Entry>) {
    && |small| <= |large|
    && forall i :: 0 <= i < |small| ==> small[i].url == large[|large| - |small| + i].url
  }

  ghost predicate Included(small: CacheVal, large: CacheVal, size: map<string, nat>) {
    && Bal(small) && Bal(large) && Sized(small.entries, size) && Sized(large.entries, size)
    && Tail(small.entries, large.entries)
  }

  lemma IndexIsUnique(es: seq<Entry>, i: nat)
    requires Distinct(es) && i < |es|
    ensures IndexOf(es, es[i].url) == i
  {}

  lemma TailHolds(small: seq<Entry>, large: seq<Entry>, url: string)
    requires Tail(small, large) && Distinct(large) && Holds(small, url)
    ensures Holds(large, url) && IndexOf(large, url) == |large| - |small| + IndexOf(small, url)
  {
    IndexIsUnique(large, |large| - |small| + IndexOf(small, url));
  }

  lemma {:induction false} SizesAgree(a: seq<Entry>, b: seq<Entry>, size: map<string, nat>)
    requires Sized(a, size) && Sized(b, size) && |a| == |b|
    requires forall i :: 0 <= i < |a| ==> a[i].url == b[i].url
    ensures Sum(AllBytes, a) == Sum(AllBytes, b)
  {
    if a != [] {
      assert a[0] in a && b[0] in b;
      SizesAgree(a[1..], b[1..], size);
    }
  }

  lemma SizedParts(a: seq<Entry>, b: seq<Entry>, size: map<string, nat>)
    ensures Sized(a + b, size) <==> Sized(a, size) && Sized(b, size)
  {
    if Sized(a + b, size) {
      forall e | e in a ensures e in a + b {}
      forall e | e in b ensures e in a + b {}
    }
  }

  lemma SizedSlice(es: seq<Entry>, k: nat, size: map<string, nat>)
    requires k <= |es| && Sized(es, size)
    ensures Sized(es[k..], size) && Sized(es[..k], size)
  {
    assert es == es[..k] + es[k..];
    SizedParts(es[..k], es[k..], size);
  }

  /** Two longest fits of the same recency list: the smaller budget's is a tail of the larger budget's. */
  lemma FitsNest(c1: nat, c2: nat, all1: seq<Entry>, all2: seq<Entry>, kept1: seq<Entry>, kept2: seq<Entry>,
                 size: map<string, nat>)
    requires c1 <= c2 && Tail(all1, all2) && Sized(all1, size) && Sized(all2, size)
    requires LongestFit(c1, all1, kept1) && LongestFit(c2, all2, kept2)
    ensures Tail(kept1, kept2)
  {
    var n1, n2 := |kept1|, |kept2|;
    if n1 > n2 {
      var t := all2[|all2| - n1..];
      SizedSlice(all1, |all1| - n1, size);
      SizedSlice(all2, |all2| - n1, size);
      SizesAgree(kept1, t, size);
      assert false;
    }
  }

  lemma NewestTail(small: seq<Entry>, large: seq<Entry>, a: Entry, b: Entry)
    requires Tail(small, large) && a.url == b.url
    ensures Tail(small + [a], large + [b])
  {}

  /** Taking a page the smaller cache does not hold out of the larger one leaves the tail. */
  lemma WithoutTail(small: seq<Entry>, large: seq<Entry>, i: nat)
    requires Tail(small, large) && i < |large| - |small|
    ensures Tail(small, Without(large, i))
  {}

  lemma WithoutBothTail(small: seq<Entry>, large: seq<Entry>, i: nat)
    requires Tail(small, large) && i < |small|
    ensures Tail(Without(small, i), Without(large, |large| - |small| + i))
  {
    var s, l := Without(small, i), Without(large, |large| - |small| + i);
    forall k | 0 <= k < |s| ensures s[k].url == l[|l| - |s| + k].url {
      if k >= i {
        assert s[k] == small[k + 1];
      }
    }
  }

  lemma HitSized(v: CacheVal, i: nat, size: map<string, nat>)
    requires i < |v.entries| && Sized(v.entries, size)
    ensures Sized(Hit(v, i).entries, size)
  {
    var e := v.entries[i];
    assert e in v.entries;
    SizedSlice(v.entries, i, size);
    SizedSlice(v.entries, i + 1, size);
    SizedParts(v.entries[..i], v.entries[i + 1..], size);
    SizedParts(Without(v.entries, i), [e.(hits := e.hits + 1)], size);
  }

  lemma MissStores(capacity: nat, v: CacheVal, e: Entry, now: real, size: map<string, nat>)
    requires Bal(v) && Sized(v.entries, size) && v.used <= capacity && !Holds(v.entries, e.url)
    requires e.url in size && size[e.url] == Size(e) <= capacity
    ensures var w := Refer(capacity, v, e, now);
            var all := v.entries + [e.(storedAt := now)];
            && Bal(w) && w.used <= capacity && Sized(w.entries, size) && Sized(all, size)
            && LongestFit(capacity, all, w.entries)
  {
    var v1 := AfterGet(0.0, v, e.url, now);
    PutKeepsAndEvictsLeast(capacity, v1, e, now);
    StoreBalanced(capacity, v1, e, now);
    var all, w := v.entries + [e.(storedAt := now)], Refer(capacity, v, e, now);
    SizedParts(v.entries, [e.(storedAt := now)], size);
    SizedSlice(all, |all| - |w.entries|, size);
  }

  lemma ReferIncluded(c1: nat, c2: nat, small: CacheVal, large: CacheVal, e: Entry, now1: real, now2: real,
                      size: map<string, nat>)
    requires c1 <= c2 && Included(small, large, size) && small.used <= c1 && large.used <= c2
    requires e.url in size && size[e.url] == Size(e) <= c1
    ensures Included(Refer(c1, small, e, now1), Refer(c2, large, e, now2), size)
    ensures Refer(c1, small, e, now1).used <= c1 && Refer(c2, large, e, now2).used <= c2
    ensures Holds(small.entries, e.url) ==> Holds(large.entries, e.url)
  {
    if Holds(small.entries, e.url) {
      HitBoth(small, large, e.url, size);
    } else if Holds(large.entries, e.url) {
      HitLarge(c1, small, large, e, now1, size);
    } else {
      MissStores(c1, small, e, now1, size);
      MissStores(c2, large, e, now2, size);
      var x, y := e.(storedAt := now1), e.(storedAt := now2);
      NewestTail(small.entries, large.entries, x, y);
      hide Refer, LongestFit;
      FitsNest(c1, c2, small.entries + [x], large.entries + [y],
               Refer(c1, small, e, now1).entries, Refer(c2, large, e, now2).entries, size);
    }
  }

  lemma BalDistinct(v: CacheVal)
    requires Bal(v)
    ensures Distinct(v.entries)
  {}

  lemma HitBoth(small: CacheVal, large: CacheVal, url: string, size: map<string, nat>)
    requires Included(small, large, size) && Holds(small.entries, url)
    ensures Holds(large.entries, url)
    ensures Included(Lookup(small, url), Lookup(large, url), size)
    ensures Lookup(small, url).used == small.used && Lookup(large, url).used == large.used
  {
    hide Balanced, Sized, Tail, Without;
    BalDistinct(small);
    BalDistinct(large);
    TailHolds(small.entries, large.entries, url);
    var i, j := IndexOf(small.entries, url), IndexOf(large.entries, url);
    HitBalanced(small, i);
    HitBalanced(large, j);
    HitSized(small, i, size);
    HitSized(large, j, size);
    WithoutBothTail(small.entries, large.entries, i);
    var a, b := small.entries[i], large.entries[j];
    NewestTail(Without(small.entries, i), Without(large.entries, j), a.(hits := a.hits + 1), b.(hits := b.hits + 1));
  }

  lemma HitLarge(c1: nat, small: CacheVal, large: CacheVal, e: Entry, now: real, size: map<string, nat>)
    requires Included(small, large, size) && small.used <= c1
    requires !Holds(small.entries, e.url) && Holds(large.entries, e.url)
    requires e.url in size && size[e.url] == Size(e) <= c1
    ensures Included(Refer(c1, small, e, now), Lookup(large, e.url), size)
    ensures Refer(c1, small, e, now).used <= c1 && Lookup(large, e.url).used == large.used
  {
    hide Balanced, Sized, Tail, Without, LongestFit, Refer;
    var j := IndexOf(large.entries, e.url);
    MissStores(c1, small, e, now, size);
    HitBalanced(large, j);
    HitSized(large, j, size);
    BalDistinct(small);
    NotInTail(small.entries, large.entries, e.url);
    WithoutTail(small.entries, large.entries, j);
    var x, b := e.(storedAt := now), large.entries[j];
    NewestTail(small.entries, Without(large.entries, j), x, b.(hits := b.hits + 1));
    ShorterTail(c1, small.entries + [x], Refer(c1, small, e, now).entries, Lookup(large, e.url).entries);
  }

  lemma NotInTail(small: seq<Entry>, large: seq<Entry>, url: string)
    requires Tail(small, large) && !Holds(small, url) && Holds(large, url)
    ensures |small| <= |large| && IndexOf(large, url) < |large| - |small|
  {
    assert forall i :: 0 <= i < |small| ==> small[i].url != url;
    assert forall j :: |large| - |small| <= j < |large| ==> large[j].url == small[j - (|large| - |small|)].url;
  }

  lemma ShorterTail(capacity: nat, all: seq<Entry>, kept: seq<Entry>, large: seq<Entry>)
    requires Tail(all, large) && LongestFit(capacity, all, kept)
    ensures Tail(kept, large)
  {}

  lemma EmptyIncluded(size: map<string, nat>)
    ensures Included(EMPTY, EMPTY, size)
  {
    hide Bal, Sized, Tail;
    EmptyBalanced();
    EmptyTail(size);
  }

  lemma EmptyBalanced()
    ensures Bal(EMPTY)
  {
    hide Distinct;
    NothingDistinct();
  }

  lemma NothingDistinct()
    ensures Distinct([])
  {}

  lemma EmptyTail(size: map<string, nat>)
    ensures Sized([], size) && Tail([], [])
  {}

  /** LRU inclusion, for every sequence of references and any two capacities at least the largest page, with
      clocks of their own. */
  lemma {:induction false} BiggerCacheIncludesSmaller(c1: nat, c2: nat, refs1: seq<Ref>, refs2: seq<Ref>,
                                                      size: map<string, nat>)
    requires c1 <= c2 && FixedSizes(refs1, c1, size) && SamePages(refs1, refs2)
    ensures var small, large := ReferAll(c1, refs1), ReferAll(c2, refs2);
            Included(small, large, size) && small.used <= c1 && large.used <= c2
  {
    hide Included, Refer;
    if refs1 == [] {
      EmptyIncluded(size);
    } else {
      var n := |refs1| - 1;
      var front1, front2, r := refs1[..n], refs2[..n], refs1[n];
      assert r in refs1;
      assert forall x <- front1 :: x in refs1;
      BiggerCacheIncludesSmaller(c1, c2, front1, front2, size);
      ReferIncluded(c1, c2, ReferAll(c1, front1), ReferAll(c2, front2), r.page, r.at, refs2[n].at, size);
    }
  }

  /** So every hit of the smaller cache is a hit of the larger one, reference by reference. */
  lemma BiggerCacheNeverLosesAHit(c1: nat, c2: nat, refs1: seq<Ref>, refs2: seq<Ref>, url: string, size: map<string,
                                  nat>)
    requires c1 <= c2 && FixedSizes(refs1, c1, size) && SamePages(refs1, refs2)
    ensures Holds(ReferAll(c1, refs1).entries, url) ==> Holds(ReferAll(c2, refs2).entries, url)
  {
    BiggerCacheIncludesSmaller(c1, c2, refs1, refs2, size);
    var small, large := ReferAll(c1, refs1), ReferAll(c2, refs2);
    if Holds(small.entries, url) {
      TailHolds(small.entries, large.entries, url);
    }
  }
}
